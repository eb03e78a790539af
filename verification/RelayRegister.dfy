/** `register_self` up to the directory: superseding, waking listeners' waiters, taking the name. */
module RelayRegister {
  import opened Bytes
  import opened SessionNames
  import opened RelayDirectories
  import opened RelayModel
  import opened RelayInvariant
  import opened RelaySteps
  import opened RelayFinish

  function Joined(x: Session, n: Name, est: bool, next: Pc): Session {
    x.(name := n, established := est, registered := true, pc := next)
  }

  /** What registering `n` does to a session other than the one that registers. */
  ghost predicate Bystander(st: State, n: Name, t: Sid, y: Session)
    requires t in st.sess
  {
    if n in st.reg && st.reg[n] == t then y == Superseded(st.sess[t])
    else if n in st.waiters && t in st.waiters[n] then y == st.sess[t].(pc := AwaitListen(true))
    else y == st.sess[t]
  }

  ghost predicate RegisterEffect(st: State, s: Sid, n: Name, est: bool, next: Pc, r: State) {
    && s in st.sess && r.sess.Keys == st.sess.Keys
    && r.dir == st.dir && r.bonds == st.bonds && r.active == st.active
    && r.reg == st.reg[n := s]
    && r.waiters == st.waiters - {n}
    && r.sess[s] == Joined(st.sess[s], n, est, next)
    && (forall t :: t in st.sess && t != s ==> Bystander(st, n, t, r.sess[t]))
  }

  /** A session that has yet to register. */
  ghost predicate Newcomer(st: State, s: Sid) {
    s in st.sess && !st.sess[s].registered && !st.sess[s].finished && !st.sess[s].closed && NotWaiting(st, s)
    && Unregistered(st.sess[s])
  }

  lemma RegAddTables(st: State, n: Name, s: Sid)
    ensures var r := RegAdd(st, n, s);
            && r.sess.Keys == st.sess.Keys && r.dir == st.dir && r.bonds == st.bonds && r.active == st.active
            && r.reg == st.reg[n := s] && r.waiters == st.waiters - {n}
  {
    if n !in st.waiters {
      assert st.waiters - {n} == st.waiters;
    }
  }

  lemma RegisterSessions(st: State, s: Sid, n: Name, est: bool, next: Pc, t: Sid)
    requires Index(st) && Waiting(st) && Newcomer(st, s) && t in st.sess
    ensures var r := Register(st, s, n, est, next);
            t in r.sess && if t == s then r.sess[t] == Joined(st.sess[s], n, est, next)
                           else Bystander(st, n, t, r.sess[t])
  {
    assert n in st.reg ==> n !in st.waiters && st.reg[n] != s;
    var base := Put(st, s, Joined(st.sess[s], n, est, next));
    var s1 := if n in st.reg then Put(base, st.reg[n], Superseded(base.sess[st.reg[n]])) else base;
    assert RegAdd(base, n, s).sess ==
           if n in st.waiters then FireListeners(s1.sess, st.waiters[n]) else s1.sess;
    if n in st.waiters && t in st.waiters[n] {
      assert st.sess[t].pc.AwaitListen?;
    }
  }

  lemma RegisterHasEffect(st: State, s: Sid, n: Name, est: bool, next: Pc)
    requires Index(st) && Waiting(st) && Newcomer(st, s)
    ensures RegisterEffect(st, s, n, est, next, Register(st, s, n, est, next))
  {
    RegAddTables(Put(st, s, Joined(st.sess[s], n, est, next)), n, s);
    forall t | t in st.sess
      ensures var r := Register(st, s, n, est, next);
              t in r.sess && if t == s then r.sess[t] == Joined(st.sess[s], n, est, next)
                             else Bystander(st, n, t, r.sess[t])
    {
      RegisterSessions(st, s, n, est, next, t);
    }
  }

  /** Tables see a bystander as unchanged, except for being superseded or woken. */
  ghost predicate NearlyQuiet(x: Session, y: Session) {
    && y.name == x.name && y.registered == x.registered && y.finished == x.finished
    && y.established == x.established && (x.closed ==> y.closed) && (x.superseded ==> y.superseded)
    && (y.pc.AwaitListen? <==> x.pc.AwaitListen?)
    && y.log == x.log && y.input == x.input
    && (Streaming(y.pc) ==> Streaming(x.pc) && Pending(y.pc) == Pending(x.pc))
  }

  lemma BystandersNearlyQuiet(st: State, s: Sid, n: Name, est: bool, next: Pc, r: State)
    requires Waiting(st) && RegisterEffect(st, s, n, est, next, r)
    ensures forall t :: t in st.sess && t != s ==> NearlyQuiet(st.sess[t], r.sess[t])
  {
    forall t | t in st.sess && t != s ensures NearlyQuiet(st.sess[t], r.sess[t]) {
      assert Bystander(st, n, t, r.sess[t]);
      BystanderNearlyQuiet(st, n, t, r.sess[t]);
    }
    hide NearlyQuiet, Bystander;
  }

  lemma BystanderNearlyQuiet(st: State, n: Name, t: Sid, y: Session)
    requires Waiting(st) && t in st.sess && Bystander(st, n, t, y)
    ensures NearlyQuiet(st.sess[t], y)
  {
  }

  lemma RegisterIndex(st: State, s: Sid, n: Name, est: bool, next: Pc, r: State)
    requires Index(st) && Waiting(st) && Newcomer(st, s) && RegisterEffect(st, s, n, est, next, r)
    ensures Index(r)
  {
    hide Index, Waiting, RegisterEffect, Newcomer;
    forall m | m in r.reg ensures r.reg[m] in r.sess && r.sess[r.reg[m]].name == m && Holder(r.sess[r.reg[m]]) {
      RegisterEntry(st, s, n, est, next, r, m);
    }
    forall t | t in r.sess && Holder(r.sess[t]) ensures r.sess[t].name in r.reg && r.reg[r.sess[t].name] == t {
      RegisterHolder(st, s, n, est, next, r, t);
    }
    IndexIs(r);
  }

  lemma IndexIs(r: State)
    requires forall m :: m in r.reg ==> r.reg[m] in r.sess && r.sess[r.reg[m]].name == m && Holder(r.sess[r.reg[m]])
    requires forall t :: t in r.sess && Holder(r.sess[t]) ==> r.sess[t].name in r.reg && r.reg[r.sess[t].name] == t
    ensures Index(r)
  {
    hide Holder;
  }

  /** Every entry of the index but the new one is an old one, of a session that was not superseded. */
  lemma RegisterEntry(st: State, s: Sid, n: Name, est: bool, next: Pc, r: State, m: Name)
    requires Index(st) && Waiting(st) && Newcomer(st, s) && RegisterEffect(st, s, n, est, next, r) && m in r.reg
    ensures r.reg[m] in r.sess && r.sess[r.reg[m]].name == m && Holder(r.sess[r.reg[m]])
  {
    if m != n {
      assert st.reg[m] in st.sess && st.reg[m] != s;
      BystanderHolds(st, n, st.reg[m], r.sess[st.reg[m]]);
    }
  }

  lemma RegisterHolder(st: State, s: Sid, n: Name, est: bool, next: Pc, r: State, t: Sid)
    requires Index(st) && Waiting(st) && Newcomer(st, s) && RegisterEffect(st, s, n, est, next, r)
    requires t in r.sess && Holder(r.sess[t])
    ensures r.sess[t].name in r.reg && r.reg[r.sess[t].name] == t
  {
    if t != s { BystanderHolds(st, n, t, r.sess[t]); }
  }

  lemma BystanderHolds(st: State, n: Name, t: Sid, y: Session)
    requires Waiting(st) && t in st.sess && Bystander(st, n, t, y)
    ensures Holder(y) <==> Holder(st.sess[t]) && !(n in st.reg && st.reg[n] == t)
    ensures y.name == st.sess[t].name
  {
  }

  lemma RegisterWaiting(st: State, s: Sid, n: Name, est: bool, next: Pc, r: State)
    requires Index(st) && Waiting(st) && Newcomer(st, s) && RegisterEffect(st, s, n, est, next, r)
    requires !next.AwaitListen?
    ensures Waiting(r)
  {
    BystandersNearlyQuiet(st, s, n, est, next, r);
    assert WaitedNames(r);
    forall t | t in r.sess && r.sess[t].pc == AwaitListen(false)
      ensures ListenerOf(r.sess[t].name) in r.waiters && t in r.waiters[ListenerOf(r.sess[t].name)]
    {
      RegisterStillWaits(st, s, n, est, next, r, t);
    }
    RegisterListed(st, s, n, est, next, r);
  }

  lemma RegisterListed(st: State, s: Sid, n: Name, est: bool, next: Pc, r: State)
    requires ListedWaits(st) && Newcomer(st, s) && RegisterEffect(st, s, n, est, next, r)
    requires forall t :: t in st.sess && t != s ==> NearlyQuiet(st.sess[t], r.sess[t])
    ensures ListedWaits(r)
  {
    forall m, t | m in r.waiters && t in r.waiters[m]
      ensures t in r.sess && r.sess[t].pc.AwaitListen? && ListenerOf(r.sess[t].name) == m
    {
      assert t != s && NearlyQuiet(st.sess[t], r.sess[t]);
    }
  }

  /** A waiter that registering `n` did not wake was waiting for another name. */
  lemma RegisterStillWaits(st: State, s: Sid, n: Name, est: bool, next: Pc, r: State, t: Sid)
    requires Waiting(st) && RegisterEffect(st, s, n, est, next, r) && !next.AwaitListen?
    requires t in r.sess && r.sess[t].pc == AwaitListen(false)
    ensures ListenerOf(r.sess[t].name) in r.waiters && t in r.waiters[ListenerOf(r.sess[t].name)]
  {
    assert t != s && Bystander(st, n, t, r.sess[t]);
    assert st.sess[t].pc == AwaitListen(false) && st.sess[t].name == r.sess[t].name;
  }

  lemma RegisterAdvertised(st: State, s: Sid, n: Name, est: bool, next: Pc, r: State)
    requires Advertised(st) && Waiting(st) && Newcomer(st, s) && RegisterEffect(st, s, n, est, next, r)
    ensures Advertised(r)
  {
    BystandersNearlyQuiet(st, s, n, est, next, r);
  }

  lemma RegisterCounted(st: State, s: Sid, n: Name, est: bool, next: Pc, r: State)
    requires Counted(st) && Waiting(st) && Newcomer(st, s) && RegisterEffect(st, s, n, est, next, r)
    ensures Counted(r)
  {
    BystandersNearlyQuiet(st, s, n, est, next, r);
    hide Waiting, NotWaiting, Bystander;
    assert Unfinished(r.sess) == Unfinished(st.sess);
  }

  lemma RegisterBonds(st: State, s: Sid, n: Name, est: bool, next: Pc, r: State)
    requires BondsOk(st) && Waiting(st) && Newcomer(st, s) && RegisterEffect(st, s, n, est, next, r)
    requires n.ConnectName? ==> !est
    ensures BondsOk(r)
  {
    BystandersNearlyQuiet(st, s, n, est, next, r);
    forall b | b in r.bonds ensures MirrorBond(r, b) {
      assert MirrorBond(st, b);
    }
    forall c | c in r.sess && r.sess[c].name.ConnectName? && r.sess[c].established
      ensures exists a :: Bond(a, c) in r.bonds
    {
      assert c != s && st.sess[c].established;
    }
  }

  lemma RegisterHalfOpen(st: State, s: Sid, n: Name, est: bool, next: Pc, r: State)
    requires Index(st) && HalfOpen(st) && BondsOk(st) && Waiting(st)
    requires Newcomer(st, s) && RegisterEffect(st, s, n, est, next, r)
    requires n.ConnectName? ==> !est
    requires n.AcceptName? ==> Peer(n).value in st.reg
    ensures HalfOpen(r)
  {
    BystandersNearlyQuiet(st, s, n, est, next, r);
    forall m | m in r.reg && r.reg[m] in r.sess && NeedsPeer(r.sess[r.reg[m]])
      ensures Peer(m).Some? && Peer(m).value in r.reg
    {
      if m != n {
        assert st.reg[m] != s;
        assert NeedsPeer(st.sess[st.reg[m]]);
      }
    }
    forall b | b in r.bonds
      ensures Torn(r.sess[b.acc], r.sess[b.con]) && Torn(r.sess[b.con], r.sess[b.acc])
    {
      assert MirrorBond(st, b);
      assert Torn(st.sess[b.acc], st.sess[b.con]) && Torn(st.sess[b.con], st.sess[b.acc]);
    }
  }

  lemma RegisterOrigins(st: State, s: Sid, n: Name, est: bool, next: Pc, r: State)
    requires Origins(st) && Waiting(st) && Newcomer(st, s) && RegisterEffect(st, s, n, est, next, r)
    ensures Origins(r)
  {
    BystandersNearlyQuiet(st, s, n, est, next, r);
    forall t, i | t in r.sess && 0 <= i < |r.sess[t].log|
      ensures r.sess[t].log[i].src in r.sess
      ensures Genuine(r.sess[t].name, r.sess[r.sess[t].log[i].src], r.sess[t].log[i].frame)
    {
      assert t != s;
      assert NearlyQuiet(st.sess[t], r.sess[t]);
      assert Genuine(st.sess[t].name, st.sess[st.sess[t].log[i].src], st.sess[t].log[i].frame);
      assert st.sess[t].log[i].src != s;
    }
  }

  lemma RegisterPipes(st: State, s: Sid, n: Name, est: bool, next: Pc, r: State)
    requires Pipes(st) && BondsOk(st) && Waiting(st) && Newcomer(st, s) && RegisterEffect(st, s, n, est, next, r)
    ensures Pipes(r)
  {
    BystandersNearlyQuiet(st, s, n, est, next, r);
    forall b | b in r.bonds && b.acc in r.sess && b.con in r.sess
      ensures Pipe(r.sess[b.acc], b.acc, r.sess[b.con]) && Pipe(r.sess[b.con], b.con, r.sess[b.acc])
    {
      assert MirrorBond(st, b);
      assert Pipe(st.sess[b.acc], b.acc, st.sess[b.con]) && Pipe(st.sess[b.con], b.con, st.sess[b.acc]);
    }
  }

  lemma BystanderLocal(st: State, n: Name, t: Sid, y: Session)
    requires Index(st) && Waiting(st) && t in st.sess && LocalOk(st.sess[t]) && Bystander(st, n, t, y)
    ensures LocalOk(y) && (Greeted(st.sess[t]) ==> Greeted(y))
  {
    var x := st.sess[t];
    hide LocalOk, Superseded;
    if n in st.reg && st.reg[n] == t {
      SupersededLocal(x);
    } else if n in st.waiters && t in st.waiters[n] {
      WokenLocal(x);
    }
  }

  lemma SupersededLocal(x: Session)
    requires LocalOk(x) && x.registered
    ensures LocalOk(Superseded(x)) && (Greeted(x) ==> Greeted(Superseded(x)))
  {
    hide Total, Notices, Fits, LargestPacket;
  }

  lemma WokenLocal(x: Session)
    requires LocalOk(x) && x.pc.AwaitListen?
    ensures LocalOk(x.(pc := AwaitListen(true)))
  {
    hide Total, Notices, Fits, LargestPacket;
  }

  lemma RegisterLocals(st: State, s: Sid, n: Name, est: bool, next: Pc, r: State)
    requires Index(st) && Waiting(st) && Locals(st) && Newcomer(st, s)
    requires RegisterEffect(st, s, n, est, next, r)
    requires ControlOk(Joined(st.sess[s], n, est, next))
    ensures Locals(r)
  {
    forall t | t in r.sess ensures LocalOk(r.sess[t]) {
      assert LocalOk(st.sess[t]);
      if t == s {
        assert st.sess[s].queue == [];
        assert QueueOk(r.sess[s]);
        assert Notices(r.sess[s].log) == 0;
      } else {
        BystanderLocal(st, n, t, r.sess[t]);
      }
    }
  }

  /** Registering keeps everything; only a new ACCEPT still waits for its greeting. */
  lemma RegisterKeeps(st: State, s: Sid, n: Name, est: bool, next: Pc)
    requires Inv(st) && Newcomer(st, s)
    requires ControlOk(Joined(st.sess[s], n, est, next)) && !next.AwaitListen?
    requires n.ConnectName? ==> !est
    requires n.AcceptName? ==> Peer(n).value in st.reg
    ensures var r := Register(st, s, n, est, next);
            && RegisterEffect(st, s, n, est, next, r)
            && Shape(r) && Traffic(r) && NotWaiting(r, s)
            && (forall t :: t in r.sess && t != s ==> Greeted(r.sess[t]))
  {
    var r := Register(st, s, n, est, next);
    RegisterHasEffect(st, s, n, est, next);
    RegisterIndex(st, s, n, est, next, r);
    RegisterWaiting(st, s, n, est, next, r);
    RegisterAdvertised(st, s, n, est, next, r);
    RegisterCounted(st, s, n, est, next, r);
    RegisterBonds(st, s, n, est, next, r);
    RegisterHalfOpen(st, s, n, est, next, r);
    RegisterOrigins(st, s, n, est, next, r);
    RegisterPipes(st, s, n, est, next, r);
    RegisterLocals(st, s, n, est, next, r);
    RegisterGreeted(st, s, n, est, next, r);
  }

  lemma RegisterGreeted(st: State, s: Sid, n: Name, est: bool, next: Pc, r: State)
    requires AllGreeted(st) && Waiting(st) && RegisterEffect(st, s, n, est, next, r)
    ensures forall t :: t in r.sess && t != s ==> Greeted(r.sess[t])
  {
    BystandersNearlyQuiet(st, s, n, est, next, r);
    forall t | t in r.sess && t != s ensures Greeted(r.sess[t]) {
      assert Greeted(st.sess[t]) && NearlyQuiet(st.sess[t], r.sess[t]);
    }
  }

  /** A port that nobody advertises is advertised by the session that registered it. */
  lemma AdvertiseKeeps(st: State, s: Sid, n: Name)
    requires Shape(st) && Traffic(st) && s in st.sess
    requires st.sess[s].registered && !st.sess[s].finished && st.sess[s].name == n
    ensures Shape(Advertise(st, s, n)) && Traffic(Advertise(st, s, n))
  {
    SameSessions(st, Advertise(st, s, n));
    AdvertiseLive(st, s, n);
  }

  lemma AdvertiseLive(st: State, s: Sid, n: Name)
    requires Advertised(st) && s in st.sess
    requires st.sess[s].registered && !st.sess[s].finished && st.sess[s].name == n
    ensures Advertised(Advertise(st, s, n))
  {
  }

  /** Only the directory's own invariant looks at the directory. */
  lemma SameSessions(st: State, r: State)
    requires Shape(st) && Traffic(st) && r == st.(dir := r.dir)
    ensures Index(r) && Waiting(r) && Counted(r) && BondsOk(r) && HalfOpen(r) && Traffic(r)
  {
    hide Index, Waiting, Counted, BondsOk, HalfOpen, Locals, Origins, Pipes;
    SameHolders(st, r);
    SameBonds(st, r);
    SameLogs(st, r);
  }

  lemma SameHolders(st: State, r: State)
    requires Index(st) && Waiting(st) && Counted(st) && r == st.(dir := r.dir)
    ensures Index(r) && Waiting(r) && Counted(r)
  {
    hide Holder, ListenerOf;
  }

  lemma SameBonds(st: State, r: State)
    requires BondsOk(st) && HalfOpen(st) && r == st.(dir := r.dir)
    ensures BondsOk(r) && HalfOpen(r)
  {
    assert forall b :: b in r.bonds ==> (MirrorBond(r, b) <==> MirrorBond(st, b));
    hide MirrorBond, Torn, NeedsPeer;
  }

  lemma SameLogs(st: State, r: State)
    requires Locals(st) && Origins(st) && Pipes(st) && r == st.(dir := r.dir)
    ensures Locals(r) && Origins(r) && Pipes(r)
  {
    hide LocalOk, Genuine, Pipe;
  }
}
