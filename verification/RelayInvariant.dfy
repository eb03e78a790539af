/** What every reachable state of the relay keeps: the predicates. */
module RelayInvariant {
  import opened Bytes
  import opened SessionNames
  import opened RelayDirectories
  import opened RelayModel

  // ---- one session ---------------------------------------------------------------------------

  ghost function Total(q: seq<Sent>): nat {
    if q == [] then 0 else Size(q[0].frame) + Total(q[1..])
  }

  ghost function InFlight(w: Writer): seq<Sent> {
    if w.Writing? || w.Failed? then [w.packet] else []
  }

  /** The largest packet that a session with this name is ever sent. */
  function LargestPacket(n: Name): nat {
    match n
    case PdpName(_) => 14 + PDP_BLOCK_LIMIT
    case ListenName(_) => 10
    case _ => 4 + PTP_BLOCK_LIMIT
  }

  /** Queue accounting, its bound, and the writer's side of the wake-up protocol. */
  ghost predicate QueueOk(x: Session) {
    && x.queuedBytes == Total(x.queue)
    && x.log == x.delivered + InFlight(x.writer) + x.queue
    && (!x.closed ==> x.queuedBytes < QUEUE_LIMIT)
    && x.queuedBytes < QUEUE_LIMIT + LargestPacket(x.name)
    && (x.writer.Idle? ==> x.queue == [] && !x.closed)
    && (x.writer.Stopped? || x.writer.Failed? ==> x.closed)
  }

  ghost predicate Unregistered(x: Session) {
    !x.registered && !x.established && !x.superseded && x.log == [] && x.input == []
  }

  /** Which flags go with which suspension point. */
  ghost predicate ControlOk(x: Session) {
    && (match x.pc
        case ReadInit => Unregistered(x) && !x.closed
        case AwaitListen(_) => Unregistered(x) && !x.closed && x.name.ConnectName?
        case AwaitBond(fired) =>
          x.registered && x.name.ConnectName? && x.input == [] && (fired || (!x.established && !x.closed))
        case ReadSome => x.registered && x.name.ListenName?
        case ReadPdpHeader => x.registered && x.name.PdpName?
        case ReadPdpBlock(target, size) =>
          x.registered && x.name.PdpName? && target.PdpName? && 0 < size <= PDP_BLOCK_LIMIT
        case ReadPtpHeader => x.registered && IsPtpPipe(x.name) && x.established
        case ReadPtpBlock(size) => x.registered && IsPtpPipe(x.name) && x.established && 0 < size
        case Done => true)
    && (x.finished <==> x.pc.Done?)
    && (x.finished ==> x.closed)
    && (x.superseded ==> x.registered && x.closed)
    && (!x.registered ==> x.log == [])
  }

  /** What may stand at position `i` of the log of a session named `n`. */
  ghost predicate Fits(n: Name, i: nat, f: Frame) {
    match n
    case PdpName(_) => f.PdpFrame? && |f.payload| <= PDP_BLOCK_LIMIT
    case ListenName(_) => f.Notice?
    case ConnectName(_, dst) => f == Notice(dst) || f.PtpFrame?
    case AcceptName(_, dst) => if i == 0 then f == Notice(dst) else f.PtpFrame?
  }

  ghost function Notices(log: seq<Sent>): nat {
    if log == [] then 0
    else Notices(log[..|log| - 1]) + if log[|log| - 1].frame.Notice? then 1 else 0
  }

  ghost predicate LogOk(x: Session) {
    && (forall i :: 0 <= i < |x.log| ==> Fits(x.name, i, x.log[i].frame))
    && (x.name.ConnectName? ==> Notices(x.log) <= if x.established then 1 else 0)
  }

  ghost predicate LocalOk(x: Session) { QueueOk(x) && ControlOk(x) && LogOk(x) }

  ghost predicate Locals(st: State) { forall s :: s in st.sess ==> LocalOk(st.sess[s]) }

  // ---- the shared tables ---------------------------------------------------------------------

  ghost predicate Holder(x: Session) { x.registered && !x.superseded && !x.finished }

  /** The session index is exact. */
  ghost predicate Index(st: State) {
    && (forall n :: n in st.reg ==>
          st.reg[n] in st.sess && st.sess[st.reg[n]].name == n && Holder(st.sess[st.reg[n]]))
    && (forall s :: s in st.sess && Holder(st.sess[s]) ==>
          st.sess[s].name in st.reg && st.reg[st.sess[s].name] == s)
  }

  ghost predicate WaitedNames(st: State) {
    forall n :: n in st.waiters ==> n !in st.reg && n.ListenName? && st.waiters[n] != []
  }

  ghost predicate ListedWaits(st: State) {
    forall n, s :: n in st.waiters && s in st.waiters[n] ==>
      s in st.sess && st.sess[s].pc.AwaitListen? && ListenerOf(st.sess[s].name) == n
  }

  ghost predicate UnfiredListed(st: State) {
    forall s :: s in st.sess && st.sess[s].pc == AwaitListen(false) ==>
      ListenerOf(st.sess[s].name) in st.waiters && s in st.waiters[ListenerOf(st.sess[s].name)]
  }

  /** The waiter table holds exactly the waits that no registration has ended. */
  ghost predicate Waiting(st: State) { WaitedNames(st) && ListedWaits(st) && UnfiredListed(st) }

  /** Every advertised port belongs to the registered, unfinished session that advertised it. */
  ghost predicate Advertised(st: State) {
    forall k :: k in st.dir ==>
      && st.dir[k] in st.sess
      && st.sess[st.dir[k]].registered && !st.sess[st.dir[k]].finished
      && KeyOf(st.sess[st.dir[k]].name) == k
  }

  ghost function Unfinished(sess: map<Sid, Session>): set<Sid> {
    set s | s in sess && !sess[s].finished
  }

  ghost predicate Counted(st: State) {
    st.active == |Unfinished(st.sess)| <= MAX_SESSIONS
  }

  // ---- bonds ---------------------------------------------------------------------------------

  ghost predicate MirrorBond(st: State, b: Bond) {
    && b.acc in st.sess && b.con in st.sess
    && st.sess[b.acc].name.AcceptName?
    && Peer(st.sess[b.acc].name) == Some(st.sess[b.con].name)
    && st.sess[b.acc].registered && st.sess[b.con].registered
    && st.sess[b.acc].established && st.sess[b.con].established
  }

  /** Bonds join mirrored endpoints, no session is in two of them, and only a bond establishes a CONNECT. */
  ghost predicate BondsOk(st: State) {
    && (forall b :: b in st.bonds ==> MirrorBond(st, b))
    && (forall b, d :: b in st.bonds && d in st.bonds && (b.acc == d.acc || b.con == d.con) ==> b == d)
    && (forall c :: c in st.sess && st.sess[c].name.ConnectName? && st.sess[c].established ==>
          exists a :: Bond(a, c) in st.bonds)
  }

  /** A side of a bond that finished without being superseded left the other side closed. */
  ghost predicate Torn(x: Session, y: Session) { x.finished && !x.superseded ==> y.closed }

  ghost predicate NeedsPeer(x: Session) {
    !x.closed && (x.name.AcceptName? || (x.name.ConnectName? && x.established))
  }

  /** No half-open bond. */
  ghost predicate HalfOpen(st: State) {
    && (forall n :: n in st.reg && st.reg[n] in st.sess && NeedsPeer(st.sess[st.reg[n]]) ==>
          Peer(n).Some? && Peer(n).value in st.reg)
    && (forall b :: b in st.bonds && b.acc in st.sess && b.con in st.sess ==>
          Torn(st.sess[b.acc], st.sess[b.con]) && Torn(st.sess[b.con], st.sess[b.acc]))
  }

  // ---- what was sent -------------------------------------------------------------------------

  /** Whether the sender's identity `from` and the receiver's name `to` explain the packet. */
  ghost predicate Genuine(to: Name, from: Session, f: Frame) {
    && from.registered
    && (f.PdpFrame? ==> from.name == PdpName(f.from))
    && (f.PtpFrame? ==> Peer(from.name) == Some(to))
    && (f.Notice? && to.ListenName? ==> from.name == ConnectName(f.from, to.src))
  }

  ghost predicate Origins(st: State) {
    forall s :: s in st.sess ==> forall i :: 0 <= i < |st.sess[s].log| ==>
      && st.sess[s].log[i].src in st.sess
      && Genuine(st.sess[s].name, st.sess[st.sess[s].log[i].src], st.sess[s].log[i].frame)

  }

  /** An ACCEPT that is registered was told about its peer before anything else. */
  ghost predicate Greeted(x: Session) {
    x.name.AcceptName? && x.registered && !x.finished ==> x.log != []
  }

  ghost predicate AllGreeted(st: State) { forall s :: s in st.sess ==> Greeted(st.sess[s]) }

  /** The wire bytes of the PTP frames in `log` that `src` sent. */
  ghost function Carried(log: seq<Sent>, src: Sid): Bytes {
    if log == [] then []
    else
      var last := log[|log| - 1];
      Carried(log[..|log| - 1], src) + if last.src == src && last.frame.PtpFrame? then Wire(last.frame) else []
  }

  /** The bytes of the block that `x` has begun but not completed. */
  ghost function Pending(pc: Pc): Bytes {
    if pc.ReadPtpBlock? then U32(pc.size) else []
  }

  ghost predicate Streaming(pc: Pc) { pc.AwaitBond? || pc.ReadPtpHeader? || pc.ReadPtpBlock? }

  /** What `y` accepted from `x` is a prefix of what `x` read, and misses nothing while `y` is open. */
  ghost predicate Pipe(x: Session, src: Sid, y: Session) {
    && Carried(y.log, src) <= x.input
    && (Streaming(x.pc) && !y.closed ==> x.input == Carried(y.log, src) + Pending(x.pc))
  }

  ghost predicate Pipes(st: State) {
    forall b :: b in st.bonds && b.acc in st.sess && b.con in st.sess ==>
      && Pipe(st.sess[b.acc], b.acc, st.sess[b.con])
      && Pipe(st.sess[b.con], b.con, st.sess[b.acc])
  }

  // ---- together ------------------------------------------------------------------------------

  /** The tables and the bonds: everything that does not look inside logs. */
  ghost predicate Shape(st: State) {
    Index(st) && Waiting(st) && Advertised(st) && Counted(st) && BondsOk(st) && HalfOpen(st)
  }

  /** Everything that looks inside logs, except that new ACCEPT sessions may not be greeted yet. */
  ghost predicate Traffic(st: State) { Locals(st) && Origins(st) && Pipes(st) }

  ghost predicate Inv(st: State) { Shape(st) && Traffic(st) && AllGreeted(st) }
}
