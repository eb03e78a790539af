/** The relay server as a transition system.

One executor thread runs every coroutine, so whatever happens between two suspension points is one
step. A step is chosen by an `Event`: which suspended operation completes, and with what result.
Reads, writes and timers complete in any order; a read that completes after its session was closed
may deliver bytes or fail.
*/
module RelayModel {
  import opened Bytes
  import opened SessionNames
  import opened RelayDirectories

  /** A session handle: the model's stand-in for a shared pointer. */
  type Sid = nat

  const PDP_BLOCK_LIMIT: nat := 2 * 10 * 1024
  const PTP_BLOCK_LIMIT: nat := 2 * 50 * 1024
  const QUEUE_LIMIT: nat := 512000
  const MAX_SESSIONS: nat := 5000

  type BlockSize = n: nat | n <= PTP_BLOCK_LIMIT
  type Block = b: Bytes | |b| <= PTP_BLOCK_LIMIT

  // ---- packets -------------------------------------------------------------------------------

  datatype Frame =
    | PdpFrame(from: Endpoint, payload: Block)
    | Notice(from: Endpoint)
    | PtpFrame(payload: Block)

  /** An `aemu_string` holding a hardware address: six bytes and two zeros. */
  function AddrField(m: Mac): (r: Bytes)
    ensures |r| == 8 && r[..6] == m
  {
    m + ['\0', '\0']
  }

  function Wire(f: Frame): (r: Bytes)
    ensures r != []
  {
    match f
    case PdpFrame(from, payload) => AddrField(from.mac) + U16(from.port) + U32(|payload|) + payload
    case Notice(from) => AddrField(from.mac) + U16(from.port)
    case PtpFrame(payload) => U32(|payload|) + payload
  }

  function Size(f: Frame): (n: nat)
    ensures n == |Wire(f)| > 0
  {
    match f
    case PdpFrame(_, payload) => 14 + |payload|
    case Notice(_) => 10
    case PtpFrame(payload) => 4 + |payload|
  }

  datatype Init = Init(kind: nat, src: Endpoint, dst: Endpoint)

  /** `aemu_postoffice_init`: a type word, then two addresses of 8 bytes (6 used) with their ports. */
  function ParseInit(raw: Bytes): Init
    requires |raw| == 24
  {
    Init(GetU32(raw[..4]),
         Endpoint(raw[4..10], GetU16(raw[12..14])),
         Endpoint(raw[14..20], GetU16(raw[22..24])))
  }

  function PdpTarget(header: Bytes): Name
    requires |header| == 14
  {
    PdpName(Endpoint(header[..6], GetU16(header[8..10])))
  }

  function PdpSize(header: Bytes): nat
    requires |header| == 14
  {
    GetU32(header[10..14])
  }

  // ---- one session ---------------------------------------------------------------------------

  /** Where `run` is suspended. `fired` says that the timer's completion is already on its way. */
  datatype Pc =
    | ReadInit
    | AwaitListen(fired: bool)
    | AwaitBond(fired: bool)
    | ReadSome
    | ReadPdpHeader
    | ReadPdpBlock(target: Name, size: BlockSize)
    | ReadPtpHeader
    | ReadPtpBlock(size: BlockSize)
    | Done

  /** One call of `queue_send` that was not dropped: who made it and what it queued. */
  datatype Sent = Sent(src: Sid, frame: Frame)

  /** Where `writer` is. `Failed` keeps the packet whose write did not complete. */
  datatype Writer = Runnable | Idle | Writing(packet: Sent) | Failed(packet: Sent) | Stopped

  /** `log`, `delivered` and `input` are history: every accepted send, every completed write, and the
      bytes read after the init packet, up to a header that ends the session by being oversized. */
  datatype Session = Session(
    pc: Pc,
    writer: Writer,
    name: Name,
    queue: seq<Sent>,
    queuedBytes: int,
    established: bool,
    closed: bool,
    registered: bool,
    superseded: bool,
    finished: bool,
    log: seq<Sent>,
    delivered: seq<Sent>,
    input: Bytes)

  const NEW_SESSION: Session :=
    Session(ReadInit, Runnable, PdpName(Endpoint(['\0', '\0', '\0', '\0', '\0', '\0'], 0)), [], 0,
            false, false, false, false, false, [], [], [])

  function Wake(w: Writer): Writer { if w.Idle? then Runnable else w }

  function SignalBond(pc: Pc): Pc { if pc.AwaitBond? then AwaitBond(true) else pc }

  function SignalListen(pc: Pc): Pc { if pc.AwaitListen? then AwaitListen(true) else pc }

  /** `close` */
  function Closed(x: Session): Session {
    if x.closed then x else x.(closed := true, writer := Wake(x.writer), pc := SignalBond(x.pc))
  }

  /** `queue_send` */
  function Queued(x: Session, p: Sent): Session {
    if x.closed then x
    else
      var y := x.(queuedBytes := x.queuedBytes + Size(p.frame), queue := x.queue + [p],
                  log := x.log + [p], writer := Wake(x.writer));
      if y.queuedBytes >= QUEUE_LIMIT then Closed(y) else y
  }

  /** `bond` */
  function Bonded(x: Session): Session { x.(established := true, pc := SignalBond(x.pc)) }

  /** `supersede` */
  function Superseded(x: Session): Session { Closed(x.(superseded := true)) }

  /** The top of the loop in `writer`. */
  function WriterLoop(x: Session): Session {
    if x.closed then x.(writer := Stopped)
    else if x.queue == [] then x.(writer := Idle)
    else
      x.(writer := Writing(x.queue[0]), queue := x.queue[1..],
         queuedBytes := x.queuedBytes - Size(x.queue[0].frame))
  }

  /** A write completes. */
  function WriteDone(x: Session, ok: bool): Session
    requires x.writer.Writing?
  {
    if ok then WriterLoop(x.(delivered := x.delivered + [x.writer.packet]))
    else Closed(x).(writer := Failed(x.writer.packet))
  }

  // ---- the whole server ----------------------------------------------------------------------

  datatype Bond = Bond(acc: Sid, con: Sid)

  /** `dir` is the port directory, each port with the session that advertised it; `bonds` is history. */
  datatype State = State(
    sess: map<Sid, Session>,
    reg: map<Name, Sid>,
    waiters: map<Name, seq<Sid>>,
    dir: map<Key, Sid>,
    active: nat,
    bonds: set<Bond>)

  const INITIAL: State := State(map[], map[], map[], map[], 0, {})

  function KeyOf(n: Name): Key {
    Key(n.src.mac, if n.PdpName? then PdpKind else PtpKind, n.src.port)
  }

  /** The LISTEN name that a CONNECT waits for. */
  function ListenerOf(n: Name): Name { if IsPtpPipe(n) then ListenName(n.dst) else n }

  function Put(st: State, s: Sid, x: Session): State { st.(sess := st.sess[s := x]) }

  function Close(st: State, s: Sid): State {
    if s in st.sess then Put(st, s, Closed(st.sess[s])) else st
  }

  function Send(st: State, s: Sid, p: Sent): State {
    if s in st.sess then Put(st, s, Queued(st.sess[s], p)) else st
  }

  function SendTo(st: State, n: Name, p: Sent): State {
    if n in st.reg then Send(st, st.reg[n], p) else st
  }

  /** `relay_registry::remove` */
  function Unregister(st: State, n: Name, s: Sid): State {
    if n in st.reg && st.reg[n] == s then st.(reg := st.reg - {n}) else st
  }

  function ClosePeer(st: State, n: Name): State {
    match Peer(n)
    case None => st
    case Some(p) => if p in st.reg then Close(st, st.reg[p]) else st
  }

  /** `finish`; the coroutine ends with it. */
  function Finish(st: State, s: Sid): State
    requires s in st.sess
  {
    var x := st.sess[s];
    if x.finished then st
    else
      var s1 := Put(st, s, Closed(x).(finished := true, pc := Done));
      var s2 := if x.registered then s1.(dir := s1.dir - {KeyOf(x.name)}) else s1;
      var s3 := if x.registered && !x.superseded then ClosePeer(Unregister(s2, x.name, s), x.name) else s2;
      s3.(active := if s3.active > 0 then s3.active - 1 else 0)
  }

  function FireListeners(sess: map<Sid, Session>, ws: seq<Sid>): map<Sid, Session> {
    map t | t in sess :: if t in ws then sess[t].(pc := SignalListen(sess[t].pc)) else sess[t]
  }

  /** `relay_registry::add` */
  function RegAdd(st: State, n: Name, s: Sid): State {
    var s1 := if n in st.reg && st.reg[n] in st.sess
              then Put(st, st.reg[n], Superseded(st.sess[st.reg[n]])) else st;
    var s2 := s1.(reg := s1.reg[n := s]);
    if n in s2.waiters
    then s2.(sess := FireListeners(s2.sess, s2.waiters[n]), waiters := s2.waiters - {n})
    else s2
  }

  /** `register_self` up to the directory: `s` takes its name and goes on to `next`. */
  function Register(st: State, s: Sid, n: Name, est: bool, next: Pc): State
    requires s in st.sess
  {
    var x := st.sess[s].(name := n, established := est, registered := true, pc := next);
    RegAdd(Put(st, s, x), n, s)
  }

  function Advertise(st: State, s: Sid, n: Name): State { st.(dir := st.dir[KeyOf(n) := s]) }

  /** `while (!closed_)`: wait for the next read, or fall out of `forward_loop` and finish. */
  function LoopTop(st: State, s: Sid, next: Pc): State
    requires s in st.sess
  {
    if st.sess[s].closed then Finish(st, s) else Put(st, s, st.sess[s].(pc := next))
  }

  /** The PDP and LISTEN branches of `run`. */
  function Enter(st: State, s: Sid, n: Name, next: Pc): State
    requires s in st.sess
  {
    var r := Register(st, s, n, false, next);
    if KeyOf(n) in st.dir then Finish(r, s) else LoopTop(Advertise(r, s, n), s, next)
  }

  /** `establish_connect` once `await_session` has returned. */
  function EstablishConnect(st: State, s: Sid, n: Name): State
    requires s in st.sess && n.ConnectName?
  {
    if ListenerOf(n) !in st.reg then Finish(st, s)
    else
      var r := Register(st, s, n, false, AwaitBond(false));
      if KeyOf(n) in st.dir then Finish(r, s)
      else Send(Advertise(r, s, n), st.reg[ListenerOf(n)], Sent(s, Notice(n.src)))
  }

  function AddBond(st: State, a: Sid, c: Sid): State {
    if c in st.sess then Put(st, c, Bonded(st.sess[c])).(bonds := st.bonds + {Bond(a, c)}) else st
  }

  /** The session that an ACCEPT named `n` would bond with. */
  function Bondable(st: State, n: Name): Option<Sid>
    requires n.AcceptName?
  {
    var p := Peer(n).value;
    if p in st.reg && st.reg[p] in st.sess && !st.sess[st.reg[p]].established then Some(st.reg[p]) else None
  }

  /** `establish_accept` */
  function EstablishAccept(st: State, s: Sid, n: Name): State
    requires s in st.sess && n.AcceptName?
  {
    match Bondable(st, n)
    case None => Finish(Put(st, s, st.sess[s].(name := n)), s)
    case Some(c) =>
      var r := Register(st, s, n, true, ReadPtpHeader);
      if KeyOf(n) in st.dir then Finish(r, s)
      else
        var r1 := Send(Advertise(r, s, n), c, Sent(s, Notice(n.src)));
        var r2 := Send(r1, s, Sent(s, Notice(n.dst)));
        LoopTop(AddBond(r2, s, c), s, ReadPtpHeader)
  }

  function Append(ws: map<Name, seq<Sid>>, n: Name, s: Sid): map<Name, seq<Sid>> {
    ws[n := (if n in ws then ws[n] else []) + [s]]
  }

  /** `std::erase` */
  function Without<T(==)>(ws: seq<T>, x: T): seq<T> {
    if ws == [] then []
    else (if ws[0] == x then [] else [ws[0]]) + Without(ws[1..], x)
  }

  lemma {:induction false} WithoutKeepsOthers(ws: seq<Sid>, s: Sid)
    ensures forall t :: t in Without(ws, s) <==> t in ws && t != s
  {
    if ws != [] {
      WithoutKeepsOthers(ws[1..], s);
      assert forall t :: t in ws <==> t == ws[0] || t in ws[1..];
    }
  }

  function StopWaiting(ws: map<Name, seq<Sid>>, n: Name, s: Sid): map<Name, seq<Sid>> {
    if n !in ws then ws
    else if Without(ws[n], s) == [] then ws - {n}
    else ws[n := Without(ws[n], s)]
  }

  /** `run` after the init packet. */
  function Dispatch(st: State, s: Sid, init: Init, inTime: bool): State
    requires s in st.sess
  {
    if init.kind == 0 then Enter(st, s, PdpName(init.src), ReadPdpHeader)
    else if init.kind == 1 then Enter(st, s, ListenName(init.src), ReadSome)
    else if init.kind == 2 then
      var n := ConnectName(init.src, init.dst);
      var named := Put(st, s, st.sess[s].(name := n));
      if ListenerOf(n) in st.reg || !inTime then EstablishConnect(named, s, n)
      else Put(st, s, st.sess[s].(name := n, pc := AwaitListen(false)))
           .(waiters := Append(st.waiters, ListenerOf(n), s))
    else if init.kind == 3 then EstablishAccept(st, s, AcceptName(init.src, init.dst))
    else Finish(st, s)
  }

  /** A whole block from `s` goes to `target`, if anything is registered there, and the loop goes on. */
  function Forward(st: State, s: Sid, target: Name, f: Frame, next: Pc): State
    requires s in st.sess
  {
    LoopTop(SendTo(st, target, Sent(s, f)), s, next)
  }

  function Consume(st: State, s: Sid, raw: Bytes): State
    requires s in st.sess
  {
    Put(st, s, st.sess[s].(input := st.sess[s].input + raw))
  }

  function PdpHeaderRead(st: State, s: Sid, raw: Bytes): State
    requires s in st.sess && |raw| == 14
  {
    var r := Consume(st, s, raw);
    if PdpSize(raw) > PDP_BLOCK_LIMIT then Finish(st, s)
    else if PdpSize(raw) == 0
    then Forward(r, s, PdpTarget(raw), PdpFrame(st.sess[s].name.src, []), ReadPdpHeader)
    else Put(r, s, r.sess[s].(pc := ReadPdpBlock(PdpTarget(raw), PdpSize(raw))))
  }

  function PtpHeaderRead(st: State, s: Sid, raw: Bytes): State
    requires s in st.sess && |raw| == 4 && IsPtpPipe(st.sess[s].name)
  {
    var r := Consume(st, s, raw);
    if GetU32(raw) > PTP_BLOCK_LIMIT then Finish(st, s)
    else if GetU32(raw) == 0
    then Forward(r, s, Peer(st.sess[s].name).value, PtpFrame([]), ReadPtpHeader)
    else Put(r, s, r.sess[s].(pc := ReadPtpBlock(GetU32(raw))))
  }

  // ---- events --------------------------------------------------------------------------------

  datatype Event =
    | Connected(s: Sid)
    | InitDone(s: Sid, raw: Option<Bytes>, inTime: bool)
    | ListenTimer(s: Sid)
    | ListenResume(s: Sid)
    | BondTimer(s: Sid)
    | BondResume(s: Sid)
    | SomeRead(s: Sid, ok: bool)
    | HeaderRead(s: Sid, raw: Option<Bytes>)
    | BlockRead(s: Sid, raw: Option<Bytes>)
    | WriterRuns(s: Sid)
    | Written(s: Sid, ok: bool)

  predicate Enabled(st: State, e: Event) {
    if e.Connected? then e.s !in st.sess
    else
      && e.s in st.sess
      && var x := st.sess[e.s];
         match e
         case Connected(_) => true
         case InitDone(_, raw, _) => x.pc.ReadInit? && (raw.Some? ==> |raw.value| == 24)
         case ListenTimer(_) => x.pc.AwaitListen?
         case ListenResume(_) => x.pc == AwaitListen(true) && x.name.ConnectName?
         case BondTimer(_) => x.pc.AwaitBond?
         case BondResume(_) => x.pc == AwaitBond(true)
         case SomeRead(_, _) => x.pc.ReadSome?
         case HeaderRead(_, raw) =>
           || (x.pc.ReadPdpHeader? && (raw.Some? ==> |raw.value| == 14))
           || (x.pc.ReadPtpHeader? && IsPtpPipe(x.name) && (raw.Some? ==> |raw.value| == 4))
         case BlockRead(_, raw) =>
           || (x.pc.ReadPdpBlock? && (raw.Some? ==> |raw.value| == x.pc.size))
           || (x.pc.ReadPtpBlock? && IsPtpPipe(x.name) && (raw.Some? ==> |raw.value| == x.pc.size))
         case WriterRuns(_) => x.writer.Runnable?
         case Written(_, _) => x.writer.Writing?
  }

  function Step(st: State, e: Event): State
    requires Enabled(st, e)
  {
    match e
    case Connected(s) =>
      if st.active >= MAX_SESSIONS then st else Put(st, s, NEW_SESSION).(active := st.active + 1)
    case InitDone(s, raw, inTime) =>
      if raw.None? then Finish(st, s) else Dispatch(st, s, ParseInit(raw.value), inTime)
    case ListenTimer(s) => Put(st, s, st.sess[s].(pc := AwaitListen(true)))
    case ListenResume(s) =>
      var n := st.sess[s].name;
      EstablishConnect(st.(waiters := StopWaiting(st.waiters, ListenerOf(n), s)), s, n)
    case BondTimer(s) => Put(st, s, st.sess[s].(pc := AwaitBond(true)))
    case BondResume(s) =>
      if !st.sess[s].established then Finish(st, s) else LoopTop(st, s, ReadPtpHeader)
    case SomeRead(s, ok) => if ok then LoopTop(st, s, ReadSome) else Finish(st, s)
    case HeaderRead(s, raw) =>
      if raw.None? then Finish(st, s)
      else if st.sess[s].pc.ReadPdpHeader? then PdpHeaderRead(st, s, raw.value)
      else PtpHeaderRead(st, s, raw.value)
    case BlockRead(s, raw) =>
      if raw.None? then Finish(st, s)
      else
        var x := st.sess[s];
        var r := Consume(st, s, raw.value);
        if x.pc.ReadPdpBlock?
        then Forward(r, s, x.pc.target, PdpFrame(x.name.src, raw.value), ReadPdpHeader)
        else Forward(r, s, Peer(x.name).value, PtpFrame(raw.value), ReadPtpHeader)
    case WriterRuns(s) => Put(st, s, WriterLoop(st.sess[s]))
    case Written(s, ok) => Put(st, s, WriteDone(st.sess[s], ok))
  }
}
