/** The two forwarding loops and the bonding step keep the invariant. */
module RelayData {
  import opened Bytes
  import opened SessionNames
  import opened RelayDirectories
  import opened RelayModel
  import opened RelayInvariant
  import opened RelaySteps
  import opened RelayFinish
  import opened RelayRegister
  import opened RelaySafety

  // ---- PDP ------------------------------------------------------------------------------------

  /** A PDP session is in no bond, so its input is nobody's pipe. */
  lemma ConsumePdpKeeps(st: State, s: Sid, raw: Bytes)
    requires Inv(st) && s in st.sess && st.sess[s].registered && st.sess[s].name.PdpName?
    requires st.sess[s].pc.ReadPdpHeader? || st.sess[s].pc.ReadPdpBlock?
    ensures Inv(Consume(st, s, raw))
  {
    hide Index, Waiting, Advertised, Counted, BondsOk, HalfOpen, Origins, Pipes, LocalOk;
    var r := Consume(st, s, raw);
    QuietShape(st, s, r.sess[s]);
    ConsumeLocal(st.sess[s], raw) by { assert LocalOk(st.sess[s]); }
    ConsumeOrigins(st, s, raw);
    ConsumePdpPipes(st, s, raw);
    assert AllGreeted(r) by { assert Greeted(st.sess[s]); }
  }

  lemma ConsumeLocal(x: Session, raw: Bytes)
    requires LocalOk(x) && x.registered && !x.pc.AwaitBond?
    ensures LocalOk(x.(input := x.input + raw))
  {
  }

  lemma ConsumeOrigins(st: State, s: Sid, raw: Bytes)
    requires Origins(st) && s in st.sess
    ensures Origins(Consume(st, s, raw))
  {
    var r := Consume(st, s, raw);
    forall t, i | t in r.sess && 0 <= i < |r.sess[t].log|
      ensures r.sess[t].log[i].src in r.sess
      ensures Genuine(r.sess[t].name, r.sess[r.sess[t].log[i].src], r.sess[t].log[i].frame)
    {
      assert r.sess[t].log == st.sess[t].log;
    }
  }

  lemma ConsumePdpPipes(st: State, s: Sid, raw: Bytes)
    requires Pipes(st) && BondsOk(st) && s in st.sess && st.sess[s].name.PdpName?
    ensures Pipes(Consume(st, s, raw))
  {
    var r := Consume(st, s, raw);
    forall b | b in r.bonds
      ensures Pipe(r.sess[b.acc], b.acc, r.sess[b.con]) && Pipe(r.sess[b.con], b.con, r.sess[b.acc])
    {
      assert MirrorBond(st, b);
      assert b.acc != s && b.con != s;
      assert Pipe(st.sess[b.acc], b.acc, st.sess[b.con]) && Pipe(st.sess[b.con], b.con, st.sess[b.acc]);
    }
  }

  /** A PDP block reaches whoever is registered under the target name, under the sender's own identity. */
  lemma PdpForwardKeeps(st: State, s: Sid, raw: Bytes, target: Name, block: Block)
    requires Inv(st) && s in st.sess && st.sess[s].registered && st.sess[s].name.PdpName?
    requires st.sess[s].pc.ReadPdpHeader? || st.sess[s].pc.ReadPdpBlock?
    requires target.PdpName? && |block| <= PDP_BLOCK_LIMIT
    ensures Inv(Forward(Consume(st, s, raw), s, target, PdpFrame(st.sess[s].name.src, block), ReadPdpHeader))
  {
    hide Waiting, Advertised, Counted, BondsOk, HalfOpen, Origins, Pipes, LocalOk, Send, Finish, LoopTop;
    var q := Consume(st, s, raw);
    ConsumePdpKeeps(st, s, raw);
    var p := Sent(s, PdpFrame(st.sess[s].name.src, block));
    var r := SendTo(q, target, p);
    if target in q.reg {
      SendKeeps(q, q.reg[target], p);
      SendKeepsGreeted(q, q.reg[target], p);
    }
    PdpLoopAgain(r, s) by {
      StillRunning(st, s);
    }
  }

  lemma StillRunning(st: State, s: Sid)
    requires Locals(st) && s in st.sess && !st.sess[s].pc.Done?
    ensures !st.sess[s].finished
  {
    assert LocalOk(st.sess[s]);
  }

  lemma PdpLoopAgain(r: State, s: Sid)
    requires Inv(r) && s in r.sess && r.sess[s].registered && r.sess[s].name.PdpName?
    requires !r.sess[s].finished
    ensures Inv(LoopTop(r, s, ReadPdpHeader))
  {
    hide Shape, Origins, Pipes, QueueOk, LogOk;
    assert LocalOk(r.sess[s]);
    LoopAgain(r, s, ReadPdpHeader);
  }

  // ---- PTP ------------------------------------------------------------------------------------

  /** The state in which a whole PTP block has gone to the peer and the next header is awaited. */
  function Delivered(st: State, s: Sid, raw: Bytes, block: Block): State
    requires s in st.sess && IsPtpPipe(st.sess[s].name)
  {
    var x := st.sess[s];
    SendTo(Put(st, s, x.(input := x.input + raw, pc := ReadPtpHeader)), Peer(x.name).value, Sent(s, PtpFrame(block)))
  }

  /** `raw` completes the block that `s` has begun. */
  ghost predicate Completes(st: State, s: Sid, raw: Bytes, block: Block) {
    && s in st.sess && (st.sess[s].pc.ReadPtpHeader? || st.sess[s].pc.ReadPtpBlock?)
    && IsPtpPipe(st.sess[s].name) && st.sess[s].registered && st.sess[s].established
    && Pending(st.sess[s].pc) + raw == Wire(PtpFrame(block))
  }

  /** What the delivery does to session `t`, which ends up as `y`. */
  ghost predicate DeliveryTo(st: State, s: Sid, raw: Bytes, p: Sent, n: Name, t: Sid, y: Session)
    requires s in st.sess && t in st.sess
  {
    var x := st.sess[t];
    && Quiet(x, y)
    && y.log == (if t != s && n in st.reg && st.reg[n] == t && !x.closed then x.log + [p] else x.log)
    && y.input == (if t == s then x.input + raw else x.input)
    && (t == s ==> y.pc == ReadPtpHeader)
    && (t != s ==> Streaming(y.pc) ==> Streaming(x.pc) && Pending(y.pc) == Pending(x.pc))
  }

  ghost predicate DeliveryEffect(st: State, s: Sid, raw: Bytes, p: Sent, n: Name, q: State) {
    && s in st.sess && q == st.(sess := q.sess) && q.sess.Keys == st.sess.Keys
    && forall t :: t in st.sess ==>
         DeliveryTo(st, s, raw, p, n, t, q.sess[t]) && LocalOk(q.sess[t]) && Greeted(q.sess[t])
  }

  lemma Advanced(x: Session, raw: Bytes)
    requires LocalOk(x) && (x.pc.ReadPtpHeader? || x.pc.ReadPtpBlock?)
    ensures var y := x.(input := x.input + raw, pc := ReadPtpHeader); LocalOk(y) && Quiet(x, y)
  {
  }

  lemma Receives(x: Session, p: Sent)
    requires LocalOk(x) && Greeted(x) && Holder(x) && IsPtpPipe(x.name) && p.frame.PtpFrame?
    ensures LocalOk(Queued(x, p)) && Quiet(x, Queued(x, p)) && Greeted(Queued(x, p))
    ensures Queued(x, p).log == (if x.closed then x.log else x.log + [p]) && Queued(x, p).input == x.input
    ensures Streaming(Queued(x, p).pc) ==> Streaming(x.pc) && Pending(Queued(x, p).pc) == Pending(x.pc)
  {
    QueuedKeeps(x, p);
  }

  lemma DeliveredSession(st: State, s: Sid, raw: Bytes, block: Block, t: Sid)
    requires Index(st) && Completes(st, s, raw, block) && t in st.sess
    ensures var x, n, q := st.sess[s], Peer(st.sess[s].name).value, Delivered(st, s, raw, block);
            && q == st.(sess := q.sess) && q.sess.Keys == st.sess.Keys
            && q.sess[t] == (if t == s then x.(input := x.input + raw, pc := ReadPtpHeader)
                             else if n in st.reg && st.reg[n] == t then Queued(st.sess[t], Sent(s, PtpFrame(block)))
                             else st.sess[t])
  {
    hide Queued;
    PeerIsInvolution(st.sess[s].name);
  }

  lemma DeliveredTo(st: State, s: Sid, raw: Bytes, block: Block, t: Sid)
    requires Index(st) && Locals(st) && AllGreeted(st) && Completes(st, s, raw, block) && t in st.sess
    ensures var n, q := Peer(st.sess[s].name).value, Delivered(st, s, raw, block);
            && q == st.(sess := q.sess) && q.sess.Keys == st.sess.Keys
            && DeliveryTo(st, s, raw, Sent(s, PtpFrame(block)), n, t, q.sess[t])
            && LocalOk(q.sess[t]) && Greeted(q.sess[t])
  {
    hide LocalOk, Queued, Delivered;
    var n := Peer(st.sess[s].name).value;
    PeerIsInvolution(st.sess[s].name);
    DeliveredSession(st, s, raw, block, t);
    assert LocalOk(st.sess[t]) && Greeted(st.sess[t]);
    if t == s {
      Advanced(st.sess[s], raw);
    } else if n in st.reg && st.reg[n] == t {
      Receives(st.sess[t], Sent(s, PtpFrame(block)));
    }
  }

  /** The peer takes the frame, or is closed, or nobody has the peer's name. */
  lemma DeliveredHasEffect(st: State, s: Sid, raw: Bytes, block: Block)
    requires Index(st) && Locals(st) && AllGreeted(st) && Completes(st, s, raw, block)
    ensures DeliveryEffect(st, s, raw, Sent(s, PtpFrame(block)), Peer(st.sess[s].name).value, Delivered(st, s, raw, block))
  {
    hide Index, Locals, AllGreeted, DeliveryTo, LocalOk, Greeted, Delivered;
    var q := Delivered(st, s, raw, block);
    DeliveredTo(st, s, raw, block, s);
    forall t | t in st.sess
      ensures DeliveryTo(st, s, raw, Sent(s, PtpFrame(block)), Peer(st.sess[s].name).value, t, q.sess[t])
      ensures LocalOk(q.sess[t]) && Greeted(q.sess[t])
    {
      DeliveredTo(st, s, raw, block, t);
    }
  }

  lemma DeliveredOrigins(st: State, s: Sid, raw: Bytes, p: Sent, n: Name, q: State)
    requires Index(st) && Origins(st) && DeliveryEffect(st, s, raw, p, n, q)
    requires p.src == s && p.frame.PtpFrame? && st.sess[s].registered && Peer(st.sess[s].name) == Some(n)
    ensures Origins(q)
  {
    hide LocalOk, Greeted;
    forall t, i | t in q.sess && 0 <= i < |q.sess[t].log|
      ensures q.sess[t].log[i].src in q.sess
      ensures Genuine(q.sess[t].name, q.sess[q.sess[t].log[i].src], q.sess[t].log[i].frame)
    {
      DeliveredOrigin(st, s, raw, p, n, q, t, i);
    }
  }

  lemma DeliveredOrigin(st: State, s: Sid, raw: Bytes, p: Sent, n: Name, q: State, t: Sid, i: nat)
    requires Index(st) && Origins(st) && DeliveryEffect(st, s, raw, p, n, q)
    requires p.src == s && p.frame.PtpFrame? && st.sess[s].registered && Peer(st.sess[s].name) == Some(n)
    requires t in q.sess && i < |q.sess[t].log|
    ensures q.sess[t].log[i].src in q.sess
    ensures Genuine(q.sess[t].name, q.sess[q.sess[t].log[i].src], q.sess[t].log[i].frame)
  {
    hide LocalOk, Greeted, Peer, Streaming, Pending;
    assert DeliveryTo(st, s, raw, p, n, t, q.sess[t]);
    if i < |st.sess[t].log| {
      var e := st.sess[t].log[i];
      assert q.sess[t].log[i] == e;
      assert Genuine(st.sess[t].name, st.sess[e.src], e.frame);
      assert DeliveryTo(st, s, raw, p, n, e.src, q.sess[e.src]);
    } else {
      assert q.sess[t].log[i] == p;
      assert DeliveryTo(st, s, raw, p, n, s, q.sess[s]);
    }
  }

  /** Bytes read and bytes carried grow by the same frame. */
  lemma PipeExtends(x: Session, a: Sid, y: Session, x': Session, y': Session, raw: Bytes, p: Sent)
    requires Pipe(x, a, y) && Streaming(x.pc) && p.src == a && p.frame.PtpFrame?
    requires Pending(x.pc) + raw == Wire(p.frame)
    requires x'.input == x.input + raw && x'.pc == ReadPtpHeader
    requires y'.log == if y.closed then y.log else y.log + [p]
    requires y.closed ==> y'.closed
    ensures Pipe(x', a, y')
  {
    hide Wire, Carried, Pending;
    if y.closed {
      assert Carried(y.log, a) <= x.input <= x.input + raw;
    } else {
      CarriedAppend(y.log, p, a);
      Regroup(Carried(y.log, a), Pending(x.pc), raw);
      PendingHeader();
    }
  }

  lemma Regroup(a: Bytes, b: Bytes, c: Bytes)
    ensures (a + b) + c == a + (b + c)
    ensures a + [] == a && a <= a + b
  {
  }

  lemma PendingHeader()
    ensures Pending(ReadPtpHeader) == []
  {
  }

  /** One direction of a bond: either `a` is the sender and its pipe extends, or nothing moves. */
  lemma DeliveredPipe(st: State, s: Sid, raw: Bytes, p: Sent, n: Name, q: State, a: Sid, b: Sid)
    requires Index(st) && Locals(st) && DeliveryEffect(st, s, raw, p, n, q)
    requires a in st.sess && b in st.sess && a != b && Pipe(st.sess[a], a, st.sess[b])
    requires Peer(st.sess[a].name) == Some(st.sess[b].name) && st.sess[b].registered
    requires Peer(st.sess[s].name) == Some(n) && Streaming(st.sess[s].pc)
    requires p.src == s && p.frame.PtpFrame? && Pending(st.sess[s].pc) + raw == Wire(p.frame)
    ensures Pipe(q.sess[a], a, q.sess[b])
  {
    hide Wire, QueueOk, LogOk;
    assert DeliveryTo(st, s, raw, p, n, a, q.sess[a]) && DeliveryTo(st, s, raw, p, n, b, q.sess[b]);
    var x, y := st.sess[a], st.sess[b];
    if a == s {
      assert LocalOk(y);
      // an open partner still holds the name that the frame is sent to
      assert !y.closed ==> Holder(y);
      hide Locals, LocalOk, Pipe;
      PipeExtends(x, a, y, q.sess[a], q.sess[b], raw, p);
    } else {
      CarriedAppend(y.log, p, a);
      PipeStays(x, a, y, q.sess[a], q.sess[b]);
    }
  }

  lemma DeliveredPipes(st: State, s: Sid, raw: Bytes, p: Sent, n: Name, q: State)
    requires Index(st) && Locals(st) && Pipes(st) && BondsOk(st) && DeliveryEffect(st, s, raw, p, n, q)
    requires Peer(st.sess[s].name) == Some(n) && Streaming(st.sess[s].pc)
    requires p.src == s && p.frame.PtpFrame? && Pending(st.sess[s].pc) + raw == Wire(p.frame)
    ensures Pipes(q)
  {
    hide Index, Locals, Pipe, Wire, DeliveryTo, LocalOk, Greeted, Pending;
    forall b | b in q.bonds && b.acc in q.sess && b.con in q.sess
      ensures Pipe(q.sess[b.acc], b.acc, q.sess[b.con]) && Pipe(q.sess[b.con], b.con, q.sess[b.acc])
    {
      assert MirrorBond(st, b);
      PeerIsInvolution(st.sess[b.acc].name);
      DeliveredPipe(st, s, raw, p, n, q, b.acc, b.con);
      DeliveredPipe(st, s, raw, p, n, q, b.con, b.acc);
    }
  }

  lemma DeliveredShape(st: State, s: Sid, raw: Bytes, block: Block)
    requires Shape(st) && Completes(st, s, raw, block)
    ensures Shape(Delivered(st, s, raw, block))
  {
    var x, n, p := st.sess[s], Peer(st.sess[s].name).value, Sent(s, PtpFrame(block));
    var y := x.(input := x.input + raw, pc := ReadPtpHeader);
    assert Quiet(x, y);
    hide Shape, Quiet, Queued, Completes, Wire, Pending;
    var st1 := Put(st, s, y);
    QuietShape(st, s, y);
    if n in st1.reg && st1.reg[n] in st1.sess {
      var t := st1.reg[n];
      QueuedQuiet(st1.sess[t], p);
      QuietShape(st1, t, Queued(st1.sess[t], p));
    }
  }

  lemma DeliveredKeeps(st: State, s: Sid, raw: Bytes, block: Block)
    requires Inv(st) && Completes(st, s, raw, block)
    ensures Inv(Delivered(st, s, raw, block))
  {
    hide Index, Waiting, Advertised, Counted, BondsOk, HalfOpen, Pipes, Origins, LocalOk, Greeted, Delivered,
      DeliveryTo;
    var q, n, p := Delivered(st, s, raw, block), Peer(st.sess[s].name).value, Sent(s, PtpFrame(block));
    PeerIsInvolution(st.sess[s].name);
    DeliveredHasEffect(st, s, raw, block);
    DeliveredShape(st, s, raw, block);
    DeliveredPipes(st, s, raw, p, n, q);
    DeliveredOrigins(st, s, raw, p, n, q);
  }

  /** The step that completes a PTP block, loop test included. */
  lemma PtpForwardKeeps(st: State, s: Sid, raw: Bytes, block: Block, n: Name)
    requires Completes(st, s, raw, block) && Peer(st.sess[s].name) == Some(n)
    requires Inv(st)
    ensures Inv(Forward(Consume(st, s, raw), s, n, PtpFrame(block), ReadPtpHeader))
  {
    DeliveredKeeps(st, s, raw, block);
    DeliveredAlike(st, s, raw, block);
    StillRunning(st, s);
    hide Inv, Delivered, Finish, Queued, Wire;
    LoopTopKeeps(SendTo(Consume(st, s, raw), n, Sent(s, PtpFrame(block))), s, ReadPtpHeader);
  }

  lemma DeliveredAlike(st: State, s: Sid, raw: Bytes, block: Block)
    requires Index(st) && Completes(st, s, raw, block)
    ensures var q := SendTo(Consume(st, s, raw), Peer(st.sess[s].name).value, Sent(s, PtpFrame(block)));
            && s in q.sess && q.sess[s].finished == st.sess[s].finished
            && Put(q, s, q.sess[s].(pc := ReadPtpHeader)) == Delivered(st, s, raw, block)
  {
    hide Queued, Wire, Index, Pending;
    PeerIsInvolution(st.sess[s].name);
    PeerIsAnother(st, s);
    var x, n, p := st.sess[s], Peer(st.sess[s].name).value, Sent(s, PtpFrame(block));
    var x1, x2 := x.(input := x.input + raw), x.(input := x.input + raw, pc := ReadPtpHeader);
    if n in st.reg && st.reg[n] in st.sess {
      SendCommutes(st, s, x1, x2, st.reg[n], p);
    } else {
      assert Put(Put(st, s, x1), s, x2) == Put(st, s, x2);
    }
  }

  lemma PeerIsAnother(st: State, s: Sid)
    requires Index(st) && s in st.sess
    ensures forall p :: Peer(st.sess[s].name) == Some(p) && p in st.reg ==> st.reg[p] != s
  {
  }

  lemma SendCommutes(st: State, s: Sid, x1: Session, x2: Session, t: Sid, p: Sent)
    requires s in st.sess && t in st.sess && s != t
    ensures Send(Put(st, s, x1), t, p).sess[s] == x1
    ensures Put(Send(Put(st, s, x1), t, p), s, x2) == Send(Put(st, s, x2), t, p)
  {
    hide Queued;
    var y := Queued(st.sess[t], p);
    assert st.sess[s := x1][t := y][s := x2] == st.sess[s := x2][t := y];
  }
}
