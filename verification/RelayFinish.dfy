/** `finish` keeps every invariant, from any state a step can call it in. */
module RelayFinish {
  import opened Bytes
  import opened SessionNames
  import opened RelayDirectories
  import opened RelayModel
  import opened RelayInvariant
  import opened RelaySteps

  /** The session is as it was, or registered and now closed. */
  ghost predicate Calmed(x: Session, y: Session) {
    y == x || (x.registered && y == Closed(x))
  }

  function Ended(x: Session): Session { Closed(x).(finished := true, pc := Done) }

  /** All that `finish` does, table by table. */
  ghost predicate FinishEffect(st: State, s: Sid, r: State) {
    && s in st.sess && r.sess.Keys == st.sess.Keys
    && r.waiters == st.waiters && r.bonds == st.bonds
    && r.active == st.active - 1
    && var x := st.sess[s];
       && r.sess[s] == Ended(x)
       && (forall t :: t in st.sess && t != s ==> Calmed(st.sess[t], r.sess[t]))
       && r.reg == (if Holder(x) then st.reg - {x.name} else st.reg)
       && r.dir == (if x.registered then st.dir - {KeyOf(x.name)} else st.dir)
       && (Holder(x) ==> forall p :: Peer(x.name) == Some(p) && p in st.reg ==>
             st.reg[p] in r.sess && r.sess[st.reg[p]].closed)
  }

  /** The state in which `finish` looks for the peer. */
  ghost function Detached(st: State, s: Sid): State
    requires s in st.sess
  {
    var x := st.sess[s];
    var s1 := Put(st, s, Ended(x));
    var s2 := if x.registered then s1.(dir := s1.dir - {KeyOf(x.name)}) else s1;
    if Holder(x) then Unregister(s2, x.name, s) else s2
  }

  /** The identity check in `remove` always passes. */
  lemma DetachedHasEffect(st: State, s: Sid)
    requires Index(st) && s in st.sess && !st.sess[s].finished
    ensures Holder(st.sess[s]) ==> st.sess[s].name in st.reg && st.reg[st.sess[s].name] == s
    ensures var x, r := st.sess[s], Detached(st, s);
            && r.sess == st.sess[s := Ended(x)] && r.waiters == st.waiters && r.bonds == st.bonds
            && r.active == st.active
            && r.reg == (if Holder(x) then st.reg - {x.name} else st.reg)
            && r.dir == (if x.registered then st.dir - {KeyOf(x.name)} else st.dir)
  {
  }

  lemma PeerClosedEffect(st: State, n: Name)
    requires Index(st)
    ensures var r := ClosePeer(st, n);
            && r == st.(sess := r.sess) && r.sess.Keys == st.sess.Keys
            && (forall t :: t in st.sess ==> Calmed(st.sess[t], r.sess[t]))
            && (forall p :: Peer(n) == Some(p) && p in st.reg ==>
                  st.reg[p] in r.sess && r.sess[st.reg[p]].closed
                  && r.sess == st.sess[st.reg[p] := Closed(st.sess[st.reg[p]])])
            && (forall t :: t in st.sess && r.sess[t] != st.sess[t] ==>
                  Peer(n).Some? && Peer(n).value in st.reg && st.reg[Peer(n).value] == t)
  {
  }

  lemma DetachedIndex(st: State, s: Sid)
    requires Index(st) && s in st.sess && !st.sess[s].finished
    ensures Index(Detached(st, s))
  {
    DetachedHasEffect(st, s);
  }

  /** A session that is neither `s` nor the peer of `s` is not touched. */
  lemma FinishSpares(st: State, s: Sid, t: Sid)
    requires Index(st) && s in st.sess && !st.sess[s].finished && t in st.sess && t != s
    requires Peer(st.sess[s].name).Some? && Peer(st.sess[s].name).value in st.reg ==>
               st.reg[Peer(st.sess[s].name).value] != t
    ensures t in Finish(st, s).sess && Finish(st, s).sess[t] == st.sess[t]
  {
    FinishUnfolds(st, s);
    DetachedHasEffect(st, s);
    DetachedIndex(st, s);
    hide Finish, Detached, ClosePeer, Index;
    if Holder(st.sess[s]) { PeerClosedEffect(Detached(st, s), st.sess[s].name); }
  }

  lemma FinishUnfolds(st: State, s: Sid)
    requires s in st.sess && !st.sess[s].finished
    ensures var d := Detached(st, s);
            var e := if Holder(st.sess[s]) then ClosePeer(d, st.sess[s].name) else d;
            Finish(st, s) == e.(active := if e.active > 0 then e.active - 1 else 0)
  {
  }

  /** `dec_active` never meets zero, and the whole effect is as stated. */
  lemma FinishHasEffect(st: State, s: Sid)
    requires Index(st) && Counted(st) && s in st.sess && !st.sess[s].finished
    ensures FinishEffect(st, s, Finish(st, s))
    ensures st.active > 0
  {
    ActiveAbove(st, s);
    FinishUnfolds(st, s);
    DetachedHasEffect(st, s);
    DetachedIndex(st, s);
    hide *;
    if Holder(st.sess[s]) {
      FinishedPeer(Detached(st, s), s, st.sess[s].name) by { DetachedLooks(st, s); }
      HolderEffect(st, s, Finish(st, s), Detached(st, s));
    } else {
      FormerEffect(st, s, Finish(st, s));
    }
  }

  lemma DetachedLooks(st: State, s: Sid)
    requires s in st.sess
    ensures var d := Detached(st, s);
            s in d.sess && d.sess[s].name == st.sess[s].name && d.sess[s].finished
  {
  }

  lemma HolderEffect(st: State, s: Sid, r: State, d: State)
    requires s in st.sess && Holder(st.sess[s]) && d.sess == st.sess[s := Ended(st.sess[s])]
    requires d.reg == st.reg - {st.sess[s].name}
    requires r.sess.Keys == d.sess.Keys && r.sess[s] == d.sess[s] && r.active == st.active - 1
    requires r.waiters == st.waiters && r.bonds == st.bonds && r.reg == d.reg
    requires r.dir == st.dir - {KeyOf(st.sess[s].name)}
    requires forall t :: t in d.sess ==> Calmed(d.sess[t], r.sess[t])
    requires forall p :: Peer(st.sess[s].name) == Some(p) ==> p != st.sess[s].name
    requires forall p :: Peer(st.sess[s].name) == Some(p) && p in d.reg ==> d.reg[p] in r.sess && r.sess[d.reg[p]].closed
    ensures FinishEffect(st, s, r)
  {
    hide Ended, Calmed, KeyOf, Peer;
  }

  lemma FormerEffect(st: State, s: Sid, r: State)
    requires s in st.sess && !Holder(st.sess[s]) && r.sess == st.sess[s := Ended(st.sess[s])]
    requires r.waiters == st.waiters && r.bonds == st.bonds && r.active == st.active - 1 && r.reg == st.reg
    requires r.dir == if st.sess[s].registered then st.dir - {KeyOf(st.sess[s].name)} else st.dir
    ensures FinishEffect(st, s, r)
  {
    hide Ended, KeyOf, Peer;
  }

  lemma ActiveAbove(st: State, s: Sid)
    requires Counted(st) && s in st.sess && !st.sess[s].finished
    ensures st.active > 0
  {
    assert s in Unfinished(st.sess);
  }

  /** The peer's name is another name, so the session itself is not touched again. */
  lemma FinishedPeer(d: State, s: Sid, n: Name)
    requires Index(d) && s in d.sess && d.sess[s].name == n && d.sess[s].finished
    ensures var e := ClosePeer(d, n);
            && e == d.(sess := e.sess) && e.sess.Keys == d.sess.Keys && e.sess[s] == d.sess[s]
            && (forall t :: t in d.sess ==> Calmed(d.sess[t], e.sess[t]))
            && (forall p :: Peer(n) == Some(p) && p in d.reg ==> d.reg[p] in e.sess && e.sess[d.reg[p]].closed)
    ensures forall p :: Peer(n) == Some(p) ==> p != n
  {
    PeerClosedEffect(d, n);
    if IsPtpPipe(n) { PeerIsInvolution(n); }
    hide ClosePeer, Closed;
  }

  lemma FinishIndex(st: State, s: Sid, r: State)
    requires Index(st) && FinishEffect(st, s, r) && !st.sess[s].finished
    ensures Index(r)
  {
    forall t | t in st.sess && t != s ensures Quiet(st.sess[t], r.sess[t]) {
      assert Calmed(st.sess[t], r.sess[t]);
    }
  }

  /** The session is in no waiter list. */
  ghost predicate NotWaiting(st: State, s: Sid) {
    && (forall n :: n in st.waiters ==> s !in st.waiters[n])
    && (s in st.sess ==> st.sess[s].pc != AwaitListen(false))
  }

  lemma FinishWaiting(st: State, s: Sid, r: State)
    requires Waiting(st) && FinishEffect(st, s, r) && NotWaiting(st, s)
    ensures Waiting(r)
  {
    FinishLeaves(st, s, r);
    hide FinishEffect, ListenerOf, WaitedNames, ListedWaits, UnfiredListed;
    assert WaitedNames(r) by { FinishWaited(st, r); }
    assert ListedWaits(r) by { FinishListed(st, s, r); }
    assert UnfiredListed(r) by { FinishUnfired(st, s, r); }
  }

  lemma FinishWaited(st: State, r: State)
    requires WaitedNames(st) && r.waiters == st.waiters && r.reg.Keys <= st.reg.Keys
    ensures WaitedNames(r)
  {
  }

  lemma FinishListed(st: State, s: Sid, r: State)
    requires ListedWaits(st) && NotWaiting(st, s) && r.waiters == st.waiters && r.sess.Keys == st.sess.Keys
    requires forall t :: t in st.sess && t != s ==>
      r.sess[t].name == st.sess[t].name && (r.sess[t].pc.AwaitListen? <==> st.sess[t].pc.AwaitListen?)
    ensures ListedWaits(r)
  {
    hide ListenerOf;
  }

  lemma FinishUnfired(st: State, s: Sid, r: State)
    requires UnfiredListed(st) && r.waiters == st.waiters && r.sess.Keys == st.sess.Keys
    requires s in r.sess && r.sess[s].pc == Done
    requires forall t :: t in st.sess && t != s ==>
      && r.sess[t].name == st.sess[t].name
      && (r.sess[t].pc == AwaitListen(false) ==> st.sess[t].pc == AwaitListen(false))
    ensures UnfiredListed(r)
  {
    hide ListenerOf;
  }

  lemma FinishLeaves(st: State, s: Sid, r: State)
    requires FinishEffect(st, s, r)
    ensures r.sess.Keys == st.sess.Keys && s in r.sess && r.sess[s].pc == Done
    ensures r.waiters == st.waiters && r.reg.Keys <= st.reg.Keys
    ensures forall t :: t in st.sess && t != s ==>
      && r.sess[t].name == st.sess[t].name
      && (r.sess[t].pc.AwaitListen? <==> st.sess[t].pc.AwaitListen?)
      && (r.sess[t].pc == AwaitListen(false) ==> st.sess[t].pc == AwaitListen(false))
  {
    forall t | t in st.sess && t != s
      ensures r.sess[t].name == st.sess[t].name
      ensures r.sess[t].pc.AwaitListen? <==> st.sess[t].pc.AwaitListen?
      ensures r.sess[t].pc == AwaitListen(false) ==> st.sess[t].pc == AwaitListen(false)
    {
      assert Calmed(st.sess[t], r.sess[t]);
    }
  }

  lemma FinishAdvertised(st: State, s: Sid, r: State)
    requires Advertised(st) && FinishEffect(st, s, r)
    ensures Advertised(r)
  {
    forall t | t in st.sess && t != s ensures Quiet(st.sess[t], r.sess[t]) {
      assert Calmed(st.sess[t], r.sess[t]);
    }
  }

  lemma FinishCounted(st: State, s: Sid, r: State)
    requires Counted(st) && FinishEffect(st, s, r) && !st.sess[s].finished
    ensures Counted(r)
  {
    forall t | t in st.sess && t != s ensures r.sess[t].finished == st.sess[t].finished {
      assert Calmed(st.sess[t], r.sess[t]);
    }
    assert Unfinished(r.sess) == Unfinished(st.sess) - {s};
  }

  lemma FinishBonds(st: State, s: Sid, r: State)
    requires BondsOk(st) && FinishEffect(st, s, r)
    ensures BondsOk(r)
  {
    forall t | t in st.sess
      ensures r.sess[t].name == st.sess[t].name && r.sess[t].established == st.sess[t].established
      ensures r.sess[t].registered == st.sess[t].registered
    {
      assert t != s ==> Calmed(st.sess[t], r.sess[t]);
    }
    forall b | b in r.bonds ensures MirrorBond(r, b) {
      assert MirrorBond(st, b);
    }
  }

  /** The far side of a bond is closed when `s` finishes without having been superseded. */
  lemma FinishTears(st: State, s: Sid, r: State, b: Bond)
    requires Locals(st) && Index(st) && BondsOk(st) && HalfOpen(st)
    requires FinishEffect(st, s, r) && !st.sess[s].finished
    requires b in st.bonds
    ensures b.acc in st.sess && b.con in st.sess
    ensures Torn(r.sess[b.acc], r.sess[b.con]) && Torn(r.sess[b.con], r.sess[b.acc])
  {
    hide QueueOk, LogOk;
    assert MirrorBond(st, b);
    assert Torn(st.sess[b.acc], st.sess[b.con]) && Torn(st.sess[b.con], st.sess[b.acc]);
    PeerIsInvolution(st.sess[b.acc].name);
    var other := if s == b.acc then b.con else b.acc;
    assert !Holder(st.sess[other]) && st.sess[other].registered ==> st.sess[other].closed by {
      assert LocalOk(st.sess[other]);
    }
    hide Locals, LocalOk, ControlOk;
    assert b.acc != s ==> Calmed(st.sess[b.acc], r.sess[b.acc]);
    assert b.con != s ==> Calmed(st.sess[b.con], r.sess[b.con]);
    if s == b.acc || s == b.con {
      // the other side holds its name, and is closed now; or it lost the name, and was closed then
      assert Holder(st.sess[other]) ==> st.reg[st.sess[other].name] == other;
      assert Peer(st.sess[s].name) == Some(st.sess[other].name);
    }
  }

  lemma FinishHalfOpen(st: State, s: Sid, r: State)
    requires Locals(st) && Index(st) && BondsOk(st) && HalfOpen(st)
    requires FinishEffect(st, s, r) && !st.sess[s].finished
    ensures HalfOpen(r)
  {
    hide Locals, BondsOk, Torn;
    forall b | b in r.bonds && b.acc in r.sess && b.con in r.sess
      ensures Torn(r.sess[b.acc], r.sess[b.con]) && Torn(r.sess[b.con], r.sess[b.acc])
    {
      FinishTears(st, s, r, b);
    }
    forall n | n in r.reg && r.reg[n] in r.sess && NeedsPeer(r.sess[r.reg[n]])
      ensures Peer(n).Some? && Peer(n).value in r.reg
    {
      FinishNeedsPeer(st, s, r, n);
    }
  }

  /** Whoever is left open under a name that needs a peer still has one. */
  lemma FinishNeedsPeer(st: State, s: Sid, r: State, n: Name)
    requires Index(st) && HalfOpen(st) && FinishEffect(st, s, r) && !st.sess[s].finished
    requires n in r.reg && r.reg[n] in r.sess && NeedsPeer(r.sess[r.reg[n]])
    ensures Peer(n).Some? && Peer(n).value in r.reg
  {
    hide Torn;
    var t := r.reg[n];
    assert n in st.reg && st.reg[n] == t && t != s;
    assert Calmed(st.sess[t], r.sess[t]);
    assert NeedsPeer(st.sess[t]);
    PeerIsInvolution(n);
  }

  lemma FinishShape(st: State, s: Sid)
    requires Shape(st) && Locals(st) && s in st.sess && !st.sess[s].finished && NotWaiting(st, s)
    ensures Shape(Finish(st, s))
  {
    var r := Finish(st, s);
    FinishHasEffect(st, s);
    FinishIndex(st, s, r);
    FinishWaiting(st, s, r);
    FinishAdvertised(st, s, r);
    FinishCounted(st, s, r);
    FinishBonds(st, s, r);
    FinishHalfOpen(st, s, r);
  }

  lemma EndedKeeps(x: Session)
    requires LocalOk(x)
    ensures LocalOk(Ended(x)) && SameTraffic(x, Ended(x))
  {
  }

  lemma FinishLocals(st: State, s: Sid, r: State)
    requires Locals(st) && FinishEffect(st, s, r)
    ensures Locals(r)
    ensures forall t :: t in st.sess ==> SameTraffic(st.sess[t], r.sess[t])
  {
    forall t | t in st.sess ensures LocalOk(r.sess[t]) && SameTraffic(st.sess[t], r.sess[t]) {
      if t == s {
        EndedKeeps(st.sess[s]);
      } else {
        assert LocalOk(st.sess[t]) && Calmed(st.sess[t], r.sess[t]);
        if r.sess[t] != st.sess[t] {
          ClosedKeeps(st.sess[t]);
        }
      }
    }
  }

  /** Where no log, input or name changes, senders stay genuine and pipes stay whole. */
  lemma SameTrafficKeeps(st: State, r: State)
    requires Origins(st) && Pipes(st) && r.sess.Keys == st.sess.Keys && r.bonds == st.bonds
    requires forall t :: t in st.sess ==> SameTraffic(st.sess[t], r.sess[t])
    ensures Origins(r) && Pipes(r)
  {
    forall t, i | t in r.sess && 0 <= i < |r.sess[t].log|
      ensures r.sess[t].log[i].src in r.sess
      ensures Genuine(r.sess[t].name, r.sess[r.sess[t].log[i].src], r.sess[t].log[i].frame)
    {
      assert SameTraffic(st.sess[t], r.sess[t]);
      assert Genuine(st.sess[t].name, st.sess[st.sess[t].log[i].src], st.sess[t].log[i].frame);
    }
    forall b | b in r.bonds && b.acc in r.sess && b.con in r.sess
      ensures Pipe(r.sess[b.acc], b.acc, r.sess[b.con]) && Pipe(r.sess[b.con], b.con, r.sess[b.acc])
    {
      assert Pipe(st.sess[b.acc], b.acc, st.sess[b.con]) && Pipe(st.sess[b.con], b.con, st.sess[b.acc]);
      assert SameTraffic(st.sess[b.acc], r.sess[b.acc]) && SameTraffic(st.sess[b.con], r.sess[b.con]);
    }
  }

  /** `finish` restores everything, even for an ACCEPT that was registered but never greeted. */
  lemma FinishKeeps(st: State, s: Sid)
    requires Shape(st) && Traffic(st) && s in st.sess && !st.sess[s].finished
    requires NotWaiting(st, s)
    requires forall t :: t in st.sess && t != s ==> Greeted(st.sess[t])
    ensures Inv(Finish(st, s))
  {
    FinishShape(st, s);
    FinishHasEffect(st, s);
    FinishLocals(st, s, Finish(st, s));
    SameTrafficKeeps(st, Finish(st, s));
    FinishGreeted(st, s, Finish(st, s));
  }

  lemma FinishGreeted(st: State, s: Sid, r: State)
    requires FinishEffect(st, s, r)
    requires forall t :: t in st.sess && t != s ==> Greeted(st.sess[t])
    ensures AllGreeted(r)
  {
    forall t | t in r.sess ensures Greeted(r.sess[t]) {
      assert t != s ==> Calmed(st.sess[t], r.sess[t]);
    }
  }

  /** The suspension point a session finishes from makes no difference. */
  lemma FinishForgetsPc(st: State, s: Sid, pc: Pc)
    requires s in st.sess && !st.sess[s].finished && st.sess[s].closed
    ensures Finish(Put(st, s, st.sess[s].(pc := pc)), s) == Finish(st, s)
  {
    var x := st.sess[s];
    var y := x.(pc := pc);
    assert Put(Put(st, s, y), s, Ended(y)) == Put(st, s, Ended(x));
  }

  /** `while (!closed_)` at the end of a step. */
  lemma LoopTopKeeps(st: State, s: Sid, next: Pc)
    requires s in st.sess && !st.sess[s].finished
    requires Inv(Put(st, s, st.sess[s].(pc := next))) && !next.AwaitListen?
    ensures Inv(LoopTop(st, s, next))
  {
    if st.sess[s].closed {
      FinishForgetsPc(st, s, next);
      FinishKeeps(Put(st, s, st.sess[s].(pc := next)), s);
    }
  }
}
