/** How sessions come in: waiting for a listener, being told of peers, and the limits, in numbers. */
module RelayConnects {
  import opened Bytes
  import opened SessionNames
  import opened RelayDirectories
  import opened RelayModel
  import opened RelayInvariant
  import opened RelayFinish
  import opened RelayRegister
  import opened RelayRuns
  import opened RelayHistory
  import opened RelayTheorems
  import opened RelayPorts
  import opened RelayReach
  import opened RelayWitness
  import RelayBond
  import RelaySafety

  // ---- a CONNECT without its listener -----------------------------------------------------------

  /** `s` alone is different. */
  ghost predicate OnlyChanges(st: State, s: Sid, q: State) {
    && q.sess.Keys == st.sess.Keys && (forall t :: t in st.sess && t != s ==> q.sess[t] == st.sess[t])
    && q.reg == st.reg && q.dir == st.dir && q.bonds == st.bonds
  }

  /** `s` is finished, and nothing else has changed: not even the lists of those who wait. */
  ghost predicate JustFinishes(st: State, s: Sid, q: State) {
    OnlyChanges(st, s, q) && s in q.sess && q.sess[s].finished && q.waiters == st.waiters && q.active == st.active - 1
  }

  /** `s` waits for `l`, unsignalled and last in its list, and nothing else has changed. */
  ghost predicate JustWaits(st: State, s: Sid, n: Name, l: Name, q: State) {
    && s in st.sess && OnlyChanges(st, s, q) && s in q.sess && q.active == st.active
    && q.sess[s] == st.sess[s].(name := n, pc := AwaitListen(false))
    && l in q.waiters && q.waiters[l] == (if l in st.waiters then st.waiters[l] else []) + [s]
    && forall m: Name :: m != l ==>
         (m in q.waiters <==> m in st.waiters) && (m in q.waiters ==> q.waiters[m] == st.waiters[m])
  }

  lemma FinishJust(st: State, s: Sid)
    requires Live(st, s) && s in st.sess && !st.sess[s].registered
    ensures JustFinishes(st, s, Finish(st, s))
  {
    FinishHasEffect(st, s);
    hide Finish, Index, Counted;
    forall t | t in st.sess && t != s ensures Finish(st, s).sess[t] == st.sess[t] {
      FinishReaches(st, s, t);
    }
  }

  lemma RenamedFinishes(st: State, s: Sid, n: Name)
    requires Inv(st) && Newcomer(st, s) && s in st.sess && st.sess[s].pc.ReadInit?
    ensures JustFinishes(st, s, Finish(Put(st, s, st.sess[s].(name := n)), s))
  {
    hide Finish, Inv, Newcomer, Live, Holder;
    var b := Put(st, s, st.sess[s].(name := n));
    RelaySafety.RenameKeeps(st, s, n);
    NewcomerHoldsNothing(b, s);
    StillUnregistered(st, s);
    FinishJust(b, s);
  }

  lemma StillUnregistered(st: State, s: Sid)
    requires Newcomer(st, s)
    ensures s in st.sess && !st.sess[s].registered
  {
  }

  lemma ConnectWithoutListener(st: State, s: Sid, i: Init, inTime: bool)
    requires s in st.sess && i.kind == 2 && ListenName(i.dst) !in st.reg
    ensures var n, l := ConnectName(i.src, i.dst), ListenName(i.dst);
            Dispatch(st, s, i, inTime)
            == if inTime
               then Put(st, s, st.sess[s].(name := n, pc := AwaitListen(false))).(waiters := Append(st.waiters, l, s))
               else Finish(Put(st, s, st.sess[s].(name := n)), s)
  {
    hide Finish, Append;
  }

  lemma PutWaits(st: State, s: Sid, n: Name, l: Name)
    requires s in st.sess
    ensures var q := Put(st, s, st.sess[s].(name := n, pc := AwaitListen(false))).(waiters := Append(st.waiters, l, s));
            JustWaits(st, s, n, l, q)
  {
  }

  /** A CONNECT for an endpoint whose LISTEN is not registered waits for it as long as there is time left,
      and ends at once if there is none. */
  lemma ConnectDecides(st: State, s: Sid, raw: Bytes, inTime: bool)
    requires Inv(st) && Enabled(st, InitDone(s, Some(raw), inTime))
    requires |raw| == 24 && ParseInit(raw).kind == 2 && ListenName(ParseInit(raw).dst) !in st.reg
    ensures var q, i := Step(st, InitDone(s, Some(raw), inTime)), ParseInit(raw);
            if inTime then JustWaits(st, s, ConnectName(i.src, i.dst), ListenName(i.dst), q) else JustFinishes(st, s, q)
  {
    hide *;
    var i := ParseInit(raw);
    InitSteps(st, s, raw, inTime);
    FreshIsNewcomer(st, s);
    ConnectWithoutListener(st, s, i, inTime);
    PutWaits(st, s, ConnectName(i.src, i.dst), ListenName(i.dst));
    RenamedFinishes(st, s, ConnectName(i.src, i.dst));
  }

  /** A timer that expires, like a registration, only puts the wait's end on its way. */
  lemma TimersFire(st: State, s: Sid)
    ensures Enabled(st, ListenTimer(s)) ==>
              && s in st.sess && st.sess[s].pc.AwaitListen?
              && Step(st, ListenTimer(s)) == st.(sess := st.sess[s := st.sess[s].(pc := AwaitListen(true))])
    ensures Enabled(st, BondTimer(s)) ==>
              && s in st.sess && st.sess[s].pc.AwaitBond?
              && Step(st, BondTimer(s)) == st.(sess := st.sess[s := st.sess[s].(pc := AwaitBond(true))])
  {
  }

  /** `s` is on no list, and everybody else is on the lists they were on, in the same order. */
  ghost predicate OffTheLists(st: State, s: Sid, l: Name, q: State) {
    && (forall m :: m in q.waiters ==> s !in q.waiters[m] && q.waiters[m] != [])
    && (forall m: Name :: m != l ==>
          (m in q.waiters <==> m in st.waiters) && (m in q.waiters ==> q.waiters[m] == st.waiters[m]))
    && (forall t :: t != s ==> (l in q.waiters && t in q.waiters[l] <==> l in st.waiters && t in st.waiters[l]))
  }

  lemma StoppedIsOff(st: State, s: Sid)
    requires Inv(st) && s in st.sess && st.sess[s].pc == AwaitListen(true)
    ensures var l := ListenerOf(st.sess[s].name);
            OffTheLists(st, s, l, st.(waiters := StopWaiting(st.waiters, l, s)))
  {
    hide *;
    var l := ListenerOf(st.sess[s].name);
    var b := st.(waiters := StopWaiting(st.waiters, l, s));
    RelaySafety.StopWaitingKeeps(st, s);
    ReadyFor(b, s);
    OffLists(st, s, l, b);
  }

  lemma OffLists(st: State, s: Sid, l: Name, b: State)
    requires Ready(b, s) && b == st.(waiters := StopWaiting(st.waiters, l, s))
    ensures OffTheLists(st, s, l, b)
  {
    forall t | t != s ensures l in b.waiters && t in b.waiters[l] <==> l in st.waiters && t in st.waiters[l] {
      StopWaitingSpares(st.waiters, l, s, l, t);
    }
    hide Index, Counted, Without, ListenerOf, Unregistered;
  }

  /** A wait that ends without the listener, because time is up or the listener has gone again, ends the
      session; it leaves the lists first. */
  lemma ResumeWithoutListener(st: State, s: Sid)
    requires Inv(st) && Enabled(st, ListenResume(s)) && s in st.sess && st.sess[s].name.ConnectName?
    requires ListenName(st.sess[s].name.dst) !in st.reg
    ensures var q, l := Step(st, ListenResume(s)), ListenName(st.sess[s].name.dst);
            OnlyChanges(st, s, q) && s in q.sess && q.sess[s].finished && OffTheLists(st, s, l, q)
  {
    ListenerIs(st.sess[s].name);
    ResumeRegistersNot(st, s);
    hide *;
    ResumeSteps(st, s);
    var l := ListenName(st.sess[s].name.dst);
    var b := st.(waiters := StopWaiting(st.waiters, l, s));
    RelaySafety.StopWaitingKeeps(st, s);
    NewcomerHoldsNothing(b, s);
    StillUnregistered(b, s);
    FinishJust(b, s);
    StoppedIsOff(st, s);
    OffAndFinished(st, b, s, l, Finish(b, s));
  }

  lemma OffAndFinished(st: State, b: State, s: Sid, l: Name, q: State)
    requires JustFinishes(b, s, q) && b == st.(waiters := b.waiters) && OffTheLists(st, s, l, b)
    ensures OnlyChanges(st, s, q) && s in q.sess && q.sess[s].finished && OffTheLists(st, s, l, q)
  {
  }

  lemma ResumeRegistersNot(st: State, s: Sid)
    requires Enabled(st, ListenResume(s)) && s in st.sess && ListenerOf(st.sess[s].name) !in st.reg
    ensures Registers(st, ListenResume(s)).None?
  {
  }

  // ---- inits that come to nothing ---------------------------------------------------------------

  /** An init packet that does not come, or has a type beyond 3, ends the session, and that is all. */
  lemma BadInitEnds(st: State, s: Sid, raw: Option<Bytes>, inTime: bool)
    requires Inv(st) && Enabled(st, InitDone(s, raw, inTime))
    requires raw.Some? ==> |raw.value| == 24 && ParseInit(raw.value).kind > 3
    ensures JustFinishes(st, s, Step(st, InitDone(s, raw, inTime)))
  {
    InitFails(st, s, raw, inTime);
    FreshIsNewcomer(st, s);
    hide *;
    NewcomerHoldsNothing(st, s);
    StillUnregistered(st, s);
    FinishJust(st, s);
    if raw.Some? {
      InitSteps(st, s, raw.value, inTime);
      DispatchesTo(st, s, ParseInit(raw.value), inTime);
    }
  }

  /** An ACCEPT that finds nobody to bond with ends, and that is all. */
  lemma LonelyAcceptEnds(st: State, s: Sid, raw: Bytes, inTime: bool)
    requires Inv(st) && Enabled(st, InitDone(s, Some(raw), inTime)) && |raw| == 24 && ParseInit(raw).kind == 3
    requires var i := ParseInit(raw);
             var p := ConnectName(i.dst, i.src);
             !(p in st.reg && st.reg[p] in st.sess && !st.sess[st.reg[p]].established)
    ensures JustFinishes(st, s, Step(st, InitDone(s, Some(raw), inTime)))
  {
    var i := ParseInit(raw);
    var n := AcceptName(i.src, i.dst);
    LonelyIs(st, s, n);
    hide *;
    InitSteps(st, s, raw, inTime);
    FreshIsNewcomer(st, s);
    DispatchesTo(st, s, i, inTime);
    RenamedFinishes(st, s, n);
  }

  lemma LonelyIs(st: State, s: Sid, n: Name)
    requires s in st.sess && n.AcceptName?
    requires var p := ConnectName(n.dst, n.src);
             !(p in st.reg && st.reg[p] in st.sess && !st.sess[st.reg[p]].established)
    ensures EstablishAccept(st, s, n) == Finish(Put(st, s, st.sess[s].(name := n)), s)
  {
    hide Finish;
  }

  // ---- being told -------------------------------------------------------------------------------

  /** All that the session is sent in this step is one packet, if it is open. */
  ghost predicate SentJust(x: Session, y: Session, p: Sent) {
    y.log == if x.closed then x.log else x.log + [p]
  }

  lemma QueuedSends(x: Session, p: Sent)
    ensures SentJust(x, Queued(x, p), p)
  {
    hide Size;
  }

  lemma SeenIsSilent(st: State, n: Name, t: Sid)
    requires t in st.sess
    ensures var y := Seen(st, n, t); y.log == st.sess[t].log && (y.closed ==> st.sess[t].closed || Holds(st, n, t))
  {
  }

  predicate Holds(st: State, n: Name, t: Sid) { n in st.reg && st.reg[n] == t }

  /** One notice of the newcomer's endpoint goes to the listener of a CONNECT and to the CONNECT that an ACCEPT
      bonds with, which is established by it; none if the port is in use, and none to anybody else. */
  ghost predicate Tells(st: State, s: Sid, n: Name, t: Sid, y: Session) {
    && t in st.sess
    && if KeyOf(n) !in st.dir && n.ConnectName? && Holds(st, ListenName(n.dst), t)
       then SentJust(st.sess[t], y, Sent(s, Notice(n.src)))
       else if KeyOf(n) !in st.dir && n.AcceptName? && Holds(st, ConnectName(n.dst, n.src), t) && !st.sess[t].established
       then SentJust(st.sess[t], y, Sent(s, Notice(n.src))) && y.established
       else y.log == st.sess[t].log
  }

  /** Who is told of a registration: of a CONNECT its listener, of an ACCEPT the CONNECT it bonds with, each by
      one notice of the newcomer's endpoint. Nobody else is sent anything, and nobody at all if the port is in
      use. */
  lemma PeersAreTold(st: State, e: Event, n: Name, t: Sid)
    requires Inv(st) && Enabled(st, e) && Registers(st, e) == Some(n) && t in st.sess && t != e.s
    ensures t in Step(st, e).sess && Tells(st, e.s, n, t, Step(st, e).sess[t])
  {
    hide *;
    RegistrationReaches(st, e, n, t);
    ShapeParts(st);
    if KeyOf(n) in st.dir {
      TakenIsSilent(st, n, t, Step(st, e).sess[t]);
    } else {
      FreeTells(st, e.s, n, t, Step(st, e).sess[t]);
    }
    TellsIs(st, e.s, n, t, Step(st, e).sess[t]);
  }

  lemma TellsIs(st: State, s: Sid, n: Name, t: Sid, y: Session)
    requires t in st.sess && (KeyOf(n) in st.dir ==> y.log == st.sess[t].log)
    requires KeyOf(n) !in st.dir ==>
             if n.ConnectName? && Holds(st, ListenName(n.dst), t) then SentJust(st.sess[t], y, Sent(s, Notice(n.src)))
             else if n.AcceptName? && Holds(st, ConnectName(n.dst, n.src), t) && !st.sess[t].established
             then SentJust(st.sess[t], y, Sent(s, Notice(n.src))) && y.established
             else y.log == st.sess[t].log
    ensures Tells(st, s, n, t, y)
  {
    hide KeyOf, Holds, SentJust;
  }

  lemma TakenIsSilent(st: State, n: Name, t: Sid, y: Session)
    requires TakenReach(st, n, t, y)
    ensures t in st.sess && y.log == st.sess[t].log
  {
    SeenIsSilent(st, n, t);
    ClosedIsSilent(Seen(st, n, t));
    hide Seen, Closed;
  }

  lemma FreeTells(st: State, s: Sid, n: Name, t: Sid, y: Session)
    requires Index(st) && FreeReach(st, s, n, t, y)
    ensures t in st.sess
    ensures if n.ConnectName? && Holds(st, ListenName(n.dst), t) then SentJust(st.sess[t], y, Sent(s, Notice(n.src)))
            else if n.AcceptName? && Holds(st, ConnectName(n.dst, n.src), t) && !st.sess[t].established
            then SentJust(st.sess[t], y, Sent(s, Notice(n.src))) && y.established
            else y.log == st.sess[t].log
  {
    var x, p := Seen(st, n, t), Sent(s, Notice(n.src));
    SeenAt(st, n, t);
    QueuedSends(x, p);
    QueuedSends(Bonded(x), p);
    QueuedEstablished(Bonded(x), p);
    BondableIs(st, n, t);
    hide Queued, Seen, Index, Bondable;
  }

  lemma BondableIs(st: State, n: Name, t: Sid)
    requires t in st.sess
    ensures n.AcceptName? ==>
              (Bondable(st, n) == Some(t) <==> Holds(st, ConnectName(n.dst, n.src), t) && !st.sess[t].established)
  {
  }

  lemma ClosedIsSilent(x: Session)
    ensures Closed(x).log == x.log
  {
  }

  lemma QueuedEstablished(x: Session, p: Sent)
    ensures Queued(x, p).established == x.established
  {
    hide Size;
  }

  /** The holder of another name is not superseded by the registration of `n`. */
  lemma SeenAt(st: State, n: Name, t: Sid)
    requires Index(st) && t in st.sess
    ensures var y := Seen(st, n, t);
            y.log == st.sess[t].log && (forall m :: m != n && Holds(st, m, t) ==> y.closed == st.sess[t].closed)
  {
  }

  /** Registering a name wakes everybody who waits for it, and empties its list. */
  lemma WaitersAreWoken(st: State, e: Event, n: Name, t: Sid)
    requires Inv(st) && Enabled(st, e) && Registers(st, e) == Some(n) && t in st.sess && t != e.s
    requires n in st.waiters && t in st.waiters[n]
    ensures var q := Step(st, e);
            t in q.sess && q.sess[t] == st.sess[t].(pc := AwaitListen(true)) && !q.sess[t].finished
  {
    hide *;
    RegistrationReaches(st, e, n, t);
    WaiterIsOff(st, n, t);
    WaiterReached(st, e.s, n, t, Step(st, e).sess[t]);
  }

  lemma WaiterReached(st: State, s: Sid, n: Name, t: Sid, y: Session)
    requires t in st.sess && n.ListenName? && !Holds(st, n, t) && !st.sess[t].finished && !Mirrors(st, n, t)
    requires n in st.waiters && t in st.waiters[n] && (TakenReach(st, n, t, y) || FreeReach(st, s, n, t, y))
    ensures y == st.sess[t].(pc := AwaitListen(true)) && !y.finished
  {
    hide Queued, Closed;
  }

  lemma WaiterIsOff(st: State, n: Name, t: Sid)
    requires Inv(st) && n in st.waiters && t in st.waiters[n] && t in st.sess
    ensures n.ListenName? && !Holds(st, n, t) && !st.sess[t].finished && !Mirrors(st, n, t)
  {
    ShapeParts(st);
    LocalAt(st, t);
    hide Inv, QueueOk, LogOk, Counted;
  }
}
