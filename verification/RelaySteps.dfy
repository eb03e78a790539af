/** One operation at a time: what each building block of a relay step keeps. */
module RelaySteps {
  import opened Bytes
  import opened SessionNames
  import opened RelayDirectories
  import opened RelayModel
  import opened RelayInvariant

  // ---- one session ---------------------------------------------------------------------------

  /** `y` is `x` as far as the shared tables and the bonds can tell; it may have been closed. */
  ghost predicate Quiet(x: Session, y: Session) {
    && y.name == x.name && y.registered == x.registered && y.superseded == x.superseded
    && y.finished == x.finished && y.established == x.established
    && (x.closed ==> y.closed)
    && (y.pc.AwaitListen? <==> x.pc.AwaitListen?)
    && (y.pc == AwaitListen(false) ==> x.pc == AwaitListen(false))
  }

  /** The log and what the pipes compare it with stay as they were. */
  ghost predicate SameTraffic(x: Session, y: Session) {
    && y.log == x.log && y.input == x.input && y.name == x.name && y.registered == x.registered
    && (x.closed ==> y.closed)
    && (Streaming(y.pc) ==> Streaming(x.pc) && Pending(y.pc) == Pending(x.pc))
  }

  lemma {:induction false} TotalAppend(q: seq<Sent>, p: Sent)
    ensures Total(q + [p]) == Total(q) + Size(p.frame)
  {
    if q == [] {
    } else {
      assert (q + [p])[1..] == q[1..] + [p];
      TotalAppend(q[1..], p);
    }
  }

  lemma NoticesAppend(q: seq<Sent>, p: Sent)
    ensures Notices(q + [p]) == Notices(q) + if p.frame.Notice? then 1 else 0
  {
    assert (q + [p])[..|q|] == q;
  }

  lemma CarriedAppend(q: seq<Sent>, p: Sent, src: Sid)
    ensures Carried(q + [p], src) ==
            Carried(q, src) + if p.src == src && p.frame.PtpFrame? then Wire(p.frame) else []
  {
    assert (q + [p])[..|q|] == q;
  }

  lemma ClosedKeeps(x: Session)
    requires LocalOk(x) && x.registered
    ensures LocalOk(Closed(x)) && Quiet(x, Closed(x)) && Closed(x).closed
  {
  }

  lemma FitsBound(n: Name, i: nat, f: Frame)
    requires Fits(n, i, f)
    ensures Size(f) <= LargestPacket(n)
  {
  }

  /** `queue_send` keeps the accounting and the bound, and closes on reaching the limit. */
  lemma QueuedKeeps(x: Session, p: Sent)
    requires LocalOk(x) && Fits(x.name, |x.log|, p.frame) && x.registered
    requires x.name.ConnectName? && p.frame.Notice? && !x.closed ==> x.established && Notices(x.log) == 0
    ensures LocalOk(Queued(x, p)) && Quiet(x, Queued(x, p))
    ensures Queued(x, p).log == if x.closed then x.log else x.log + [p]
  {
    hide QueueOk, ControlOk, LogOk, Quiet, Queued, Fits, Notices;
    QueuedLog(x, p);
    QueuedQuiet(x, p);
    QueuedControl(x, p);
    if x.closed {
      QueuedClosed(x, p);
    } else {
      QueuedKeepsQueue(x, p);
      AppendKeepsLog(x, p, Queued(x, p));
    }
  }

  lemma QueuedClosed(x: Session, p: Sent)
    requires x.closed
    ensures Queued(x, p) == x
  {
  }

  lemma QueuedLog(x: Session, p: Sent)
    ensures var y := Queued(x, p);
            && y.log == (if x.closed then x.log else x.log + [p])
            && y.name == x.name && y.established == x.established
  {
    hide Size;
  }

  lemma QueuedQuiet(x: Session, p: Sent)
    ensures Quiet(x, Queued(x, p))
  {
    hide Size;
  }

  lemma QueuedControl(x: Session, p: Sent)
    requires ControlOk(x) && x.registered
    ensures ControlOk(Queued(x, p))
  {
    hide Size;
  }

  lemma QueuedKeepsQueue(x: Session, p: Sent)
    requires QueueOk(x) && !x.closed && Fits(x.name, |x.log|, p.frame)
    ensures QueueOk(Queued(x, p))
  {
    var y := x.(queuedBytes := x.queuedBytes + Size(p.frame), queue := x.queue + [p],
                log := x.log + [p], writer := Wake(x.writer));
    AppendKeepsQueue(x, p, y);
    hide Total, Fits, Size, LargestPacket, Closed, QueueOk;
    if y.queuedBytes >= QUEUE_LIMIT { ClosedQueue(y); } else { OpenQueue(y); }
  }

  lemma ClosedQueue(y: Session)
    requires y.queuedBytes == Total(y.queue) && y.log == y.delivered + InFlight(y.writer) + y.queue
    requires y.queuedBytes < QUEUE_LIMIT + LargestPacket(y.name) && !y.writer.Idle? && !y.closed
    ensures QueueOk(Closed(y))
  {
    hide Total, LargestPacket;
  }

  lemma OpenQueue(y: Session)
    requires y.queuedBytes == Total(y.queue) && y.log == y.delivered + InFlight(y.writer) + y.queue
    requires y.queuedBytes < QUEUE_LIMIT && !y.writer.Idle? && !y.writer.Stopped? && !y.writer.Failed?
    ensures QueueOk(y)
  {
    hide Total;
  }

  lemma AppendKeepsQueue(x: Session, p: Sent, y: Session)
    requires QueueOk(x) && !x.closed && Fits(x.name, |x.log|, p.frame)
    requires y == x.(queuedBytes := x.queuedBytes + Size(p.frame), queue := x.queue + [p],
                     log := x.log + [p], writer := Wake(x.writer))
    ensures y.queuedBytes == Total(y.queue) && y.log == y.delivered + InFlight(y.writer) + y.queue
    ensures y.queuedBytes < QUEUE_LIMIT + LargestPacket(y.name)
    ensures !y.writer.Idle? && !y.writer.Stopped? && !y.writer.Failed?
  {
    TotalAppend(x.queue, p);
    FitsBound(x.name, |x.log|, p.frame);
    hide Total, Fits, Size, LargestPacket;
    assert y.log == y.delivered + InFlight(y.writer) + y.queue;
  }

  lemma AppendKeepsLog(x: Session, p: Sent, y: Session)
    requires LogOk(x) && Fits(x.name, |x.log|, p.frame)
    requires x.name.ConnectName? && p.frame.Notice? ==> x.established && Notices(x.log) == 0
    requires y.log == x.log + [p] && y.name == x.name && y.established == x.established
    ensures LogOk(y)
  {
    NoticesAppend(x.log, p);
  }

  /** The queue side of one writer iteration. */
  lemma WriterLoopQueue(x: Session)
    requires x.queuedBytes == Total(x.queue) && x.log == x.delivered + x.queue
    requires (!x.closed ==> x.queuedBytes < QUEUE_LIMIT) && x.queuedBytes < QUEUE_LIMIT + LargestPacket(x.name)
    ensures QueueOk(WriterLoop(x))
  {
    hide *;
    if !x.closed && x.queue != [] { WriterTakesQueue(x); } else { WriterRestsQueue(x); }
  }

  lemma WriterRestsQueue(x: Session)
    requires x.queuedBytes == Total(x.queue) && x.log == x.delivered + x.queue && (x.closed || x.queue == [])
    requires (!x.closed ==> x.queuedBytes < QUEUE_LIMIT) && x.queuedBytes < QUEUE_LIMIT + LargestPacket(x.name)
    ensures QueueOk(WriterLoop(x))
  {
    hide Size, LargestPacket, Total;
    assert x.delivered + [] + x.queue == x.log;
  }

  lemma TotalFront(q: seq<Sent>)
    requires q != []
    ensures Total(q) == Size(q[0].frame) + Total(q[1..])
  {
    hide Size;
  }

  lemma WriterTakesQueue(x: Session)
    requires x.queuedBytes == Total(x.queue) && x.log == x.delivered + x.queue && !x.closed && x.queue != []
    requires x.queuedBytes < QUEUE_LIMIT
    ensures QueueOk(WriterLoop(x))
  {
    TotalFront(x.queue);
    hide Size, LargestPacket, Total;
    assert x.queue == [x.queue[0]] + x.queue[1..];
    assert x.delivered + [x.queue[0]] + x.queue[1..] == x.log;
  }

  lemma WriterLoopKeeps(x: Session)
    requires ControlOk(x) && LogOk(x) && x.queuedBytes == Total(x.queue)
    requires x.log == x.delivered + x.queue
    requires (!x.closed ==> x.queuedBytes < QUEUE_LIMIT) && x.queuedBytes < QUEUE_LIMIT + LargestPacket(x.name)
    ensures LocalOk(WriterLoop(x)) && Quiet(x, WriterLoop(x))
  {
    hide QueueOk, Total, LargestPacket, WriterLoop, ControlOk, LogOk, Quiet;
    WriterLoopQueue(x);
    WriterLoopOnly(x);
    SameControl(x, WriterLoop(x));
  }

  /** The writer's loop is about the writer and its queue. */
  lemma WriterLoopOnly(x: Session)
    ensures var y := WriterLoop(x);
            y == x.(writer := y.writer, queue := y.queue, queuedBytes := y.queuedBytes)
  {
    hide Size;
  }

  lemma SameControl(x: Session, y: Session)
    requires y == x.(writer := y.writer, queue := y.queue, queuedBytes := y.queuedBytes)
    ensures ControlOk(x) ==> ControlOk(y)
    ensures LogOk(x) ==> LogOk(y)
    ensures Quiet(x, y)
  {
    hide Fits, Notices;
  }

  lemma WriterLoopIsSilent(x: Session)
    ensures SameTraffic(x, WriterLoop(x))
  {
  }

  lemma NothingInFlight(x: Session)
    requires LocalOk(x) && x.writer.Runnable?
    ensures ControlOk(x) && LogOk(x) && x.queuedBytes == Total(x.queue) && x.log == x.delivered + x.queue
    ensures (!x.closed ==> x.queuedBytes < QUEUE_LIMIT) && x.queuedBytes < QUEUE_LIMIT + LargestPacket(x.name)
  {
    hide ControlOk, LogOk, Total, LargestPacket;
    assert x.delivered + InFlight(x.writer) + x.queue == x.delivered + x.queue;
  }

  lemma WriterRunsLocally(x: Session)
    requires LocalOk(x) && x.writer.Runnable?
    ensures LocalOk(WriterLoop(x)) && Quiet(x, WriterLoop(x)) && SameTraffic(x, WriterLoop(x))
  {
    NothingInFlight(x);
    hide QueueOk, WriterLoop, ControlOk, LogOk, Quiet, SameTraffic, Total;
    WriterLoopKeeps(x);
    WriterLoopIsSilent(x);
  }

  lemma WriteDoneKeeps(x: Session, ok: bool)
    requires LocalOk(x) && x.writer.Writing?
    ensures LocalOk(WriteDone(x, ok)) && Quiet(x, WriteDone(x, ok)) && SameTraffic(x, WriteDone(x, ok))
  {
    if ok {
      WriterLoopKeeps(x.(delivered := x.delivered + [x.writer.packet]));
      WriterLoopIsSilent(x.(delivered := x.delivered + [x.writer.packet]));
    } else {
      assert x.log != [];
      ClosedKeeps(x);
    }
  }

  // ---- one session changes, the tables do not ---------------------------------------------------

  lemma QuietIndex(st: State, s: Sid, y: Session)
    requires Index(st) && s in st.sess && Quiet(st.sess[s], y)
    ensures Index(Put(st, s, y))
  {
  }

  lemma QuietWaiting(st: State, s: Sid, y: Session)
    requires Waiting(st) && s in st.sess && Quiet(st.sess[s], y)
    ensures Waiting(Put(st, s, y))
  {
  }

  lemma QuietAdvertised(st: State, s: Sid, y: Session)
    requires Advertised(st) && s in st.sess && Quiet(st.sess[s], y)
    ensures Advertised(Put(st, s, y))
  {
  }

  lemma QuietCounted(st: State, s: Sid, y: Session)
    requires Counted(st) && s in st.sess && Quiet(st.sess[s], y)
    ensures Counted(Put(st, s, y))
  {
    assert Unfinished(Put(st, s, y).sess) == Unfinished(st.sess);
  }

  lemma QuietBonds(st: State, s: Sid, y: Session)
    requires BondsOk(st) && s in st.sess && Quiet(st.sess[s], y)
    ensures BondsOk(Put(st, s, y))
  {
    var r := Put(st, s, y);
    forall b | b in r.bonds ensures MirrorBond(r, b) {
      assert MirrorBond(st, b);
    }
    forall c | c in r.sess && r.sess[c].name.ConnectName? && r.sess[c].established
      ensures exists a :: Bond(a, c) in r.bonds
    {
      assert st.sess[c].name.ConnectName? && st.sess[c].established;
    }
  }

  lemma QuietHalfOpen(st: State, s: Sid, y: Session)
    requires HalfOpen(st) && s in st.sess && Quiet(st.sess[s], y)
    ensures HalfOpen(Put(st, s, y))
  {
    var r := Put(st, s, y);
    forall b | b in r.bonds && b.acc in r.sess && b.con in r.sess
      ensures Torn(r.sess[b.acc], r.sess[b.con]) && Torn(r.sess[b.con], r.sess[b.acc])
    {
      assert Torn(st.sess[b.acc], st.sess[b.con]) && Torn(st.sess[b.con], st.sess[b.acc]);
    }
  }

  lemma QuietShape(st: State, s: Sid, y: Session)
    requires Shape(st) && s in st.sess && Quiet(st.sess[s], y)
    ensures Shape(Put(st, s, y))
  {
    QuietIndex(st, s, y);
    QuietWaiting(st, s, y);
    QuietAdvertised(st, s, y);
    QuietCounted(st, s, y);
    QuietBonds(st, s, y);
    QuietHalfOpen(st, s, y);
  }

  lemma QuietOrigins(st: State, s: Sid, y: Session)
    requires Origins(st) && s in st.sess && SameTraffic(st.sess[s], y)
    ensures Origins(Put(st, s, y))
  {
    var r := Put(st, s, y);
    forall t, i | t in r.sess && 0 <= i < |r.sess[t].log|
      ensures r.sess[t].log[i].src in r.sess
      ensures Genuine(r.sess[t].name, r.sess[r.sess[t].log[i].src], r.sess[t].log[i].frame)
    {
      assert r.sess[t].log == st.sess[t].log;
    }
  }

  lemma QuietPipes(st: State, s: Sid, y: Session)
    requires Pipes(st) && s in st.sess && SameTraffic(st.sess[s], y)
    ensures Pipes(Put(st, s, y))
  {
    var r := Put(st, s, y);
    forall b | b in r.bonds && b.acc in r.sess && b.con in r.sess
      ensures Pipe(r.sess[b.acc], b.acc, r.sess[b.con]) && Pipe(r.sess[b.con], b.con, r.sess[b.acc])
    {
      assert Pipe(st.sess[b.acc], b.acc, st.sess[b.con]) && Pipe(st.sess[b.con], b.con, st.sess[b.acc]);
    }
  }

  lemma QuietTraffic(st: State, s: Sid, y: Session)
    requires Traffic(st) && s in st.sess && SameTraffic(st.sess[s], y) && LocalOk(y)
    ensures Traffic(Put(st, s, y))
  {
    QuietOrigins(st, s, y);
    QuietPipes(st, s, y);
  }
}
