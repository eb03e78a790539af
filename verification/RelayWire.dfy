/** What a relay client reads: the bytes of packets at their places, and streams of them.

The readers here are the client's. They know the packets' layout in numbers, and nothing of how the
server writes them.
*/
module RelayWire {
  import opened Bytes
  import opened SessionNames
  import opened RelayModel
  import opened RelayInvariant
  import opened RelayRuns

  // ---- reading one packet ------------------------------------------------------------------------

  /** Two bytes, the low one first. */
  function Word16(b: Bytes, at: nat): (n: nat)
    requires at + 2 <= |b|
    ensures n < 0x1_0000
  {
    b[at] as int + 256 * (b[at + 1] as int)
  }

  /** Four bytes, the low one first. */
  function Word32(b: Bytes, at: nat): nat
    requires at + 4 <= |b|
  {
    b[at] as int + 256 * (b[at + 1] as int) + 65536 * (b[at + 2] as int) + 16777216 * (b[at + 3] as int)
  }

  /** A notice: six bytes of address, two zeros, the port. */
  function ReadNotice(b: Bytes): Option<(Frame, Bytes)> {
    if |b| < 10 || b[6] as int != 0 || b[7] as int != 0 then None
    else Some((Notice(Endpoint(b[..6], Word16(b, 8))), b[10..]))
  }

  /** A PDP packet: six bytes of address, two zeros, the port, the size, and so many bytes. */
  function ReadPdp(b: Bytes): Option<(Frame, Bytes)> {
    if |b| < 14 || b[6] as int != 0 || b[7] as int != 0 then None
    else
      var size := Word32(b, 10);
      if size > 102400 || |b| < 14 + size then None
      else Some((PdpFrame(Endpoint(b[..6], Word16(b, 8)), b[14..14 + size]), b[14 + size..]))
  }

  /** A PTP packet: the size, and so many bytes. */
  function ReadPtp(b: Bytes): Option<(Frame, Bytes)> {
    if |b| < 4 then None
    else
      var size := Word32(b, 0);
      if size > 102400 || |b| < 4 + size then None else Some((PtpFrame(b[4..4 + size]), b[4 + size..]))
  }

  lemma U16At(b: Bytes, at: nat, n: nat)
    requires n < 0x1_0000 && at + 2 <= |b| && b[at..at + 2] == U16(n)
    ensures Word16(b, at) == n
  {
    assert b[at] == b[at..at + 2][0] && b[at + 1] == b[at..at + 2][1];
  }

  lemma U32Bytes(n: nat)
    requires n < 0x1_0000_0000
    ensures var r := U32(n);
            r[0] as int + 256 * (r[1] as int) + 65536 * (r[2] as int) + 16777216 * (r[3] as int) == n
  {
    var lo, hi := n % 0x1_0000, n / 0x1_0000;
    assert n == lo + 65536 * hi;
    assert lo == lo % 256 + 256 * (lo / 256) && hi == hi % 256 + 256 * (hi / 256);
  }

  lemma U32At(b: Bytes, at: nat, n: nat)
    requires n < 0x1_0000_0000 && at + 4 <= |b| && b[at..at + 4] == U32(n)
    ensures Word32(b, at) == n
  {
    U32Bytes(n);
    hide U32;
    var r := b[at..at + 4];
    assert b[at] == r[0] && b[at + 1] == r[1] && b[at + 2] == r[2] && b[at + 3] == r[3];
  }

  lemma NoticeIsRead(from: Endpoint, rest: Bytes)
    ensures ReadNotice(Wire(Notice(from)) + rest) == Some((Notice(from), rest))
  {
    hide U16;
    var b := from.mac + ['\0', '\0'] + U16(from.port) + rest;
    assert Wire(Notice(from)) + rest == b;
    assert b[..6] == from.mac && b[6] == '\0' && b[7] == '\0' && b[8..10] == U16(from.port) && b[10..] == rest;
    U16At(b, 8, from.port);
  }

  lemma PdpIsRead(from: Endpoint, payload: Block, rest: Bytes)
    ensures ReadPdp(Wire(PdpFrame(from, payload)) + rest) == Some((PdpFrame(from, payload), rest))
  {
    hide U16, U32;
    var b := from.mac + ['\0', '\0'] + U16(from.port) + U32(|payload|) + payload + rest;
    assert Wire(PdpFrame(from, payload)) + rest == b;
    assert b[..6] == from.mac && b[6] == '\0' && b[7] == '\0' && b[8..10] == U16(from.port);
    assert b[10..14] == U32(|payload|) && b[14..14 + |payload|] == payload && b[14 + |payload|..] == rest;
    U16At(b, 8, from.port);
    U32At(b, 10, |payload|);
  }

  lemma PtpIsRead(payload: Block, rest: Bytes)
    ensures ReadPtp(Wire(PtpFrame(payload)) + rest) == Some((PtpFrame(payload), rest))
  {
    hide U32;
    var b := U32(|payload|) + payload + rest;
    assert Wire(PtpFrame(payload)) + rest == b;
    assert b[0..4] == U32(|payload|) && b[4..4 + |payload|] == payload && b[4 + |payload|..] == rest;
    U32At(b, 0, |payload|);
  }

  // ---- reading a stream --------------------------------------------------------------------------

  /** The kinds of packets, by how they are read. */
  datatype Kind = NoticeKind | PdpKind | PtpKind

  function KindOf(f: Frame): Kind {
    if f.PdpFrame? then PdpKind else if f.Notice? then NoticeKind else PtpKind
  }

  /** What a client expects as its packet number `k`: PDP packets under PDP, notices under LISTEN, and under
      CONNECT and ACCEPT one notice of the peer and then its data. */
  function Expected(n: Name, k: nat): Kind {
    match n
    case PdpName(_) => PdpKind
    case ListenName(_) => NoticeKind
    case _ => if k == 0 then NoticeKind else PtpKind
  }

  function ReadOne(kind: Kind, b: Bytes): Option<(Frame, Bytes)> {
    match kind
    case NoticeKind => ReadNotice(b)
    case PdpKind => ReadPdp(b)
    case PtpKind => ReadPtp(b)
  }

  /** Every whole packet in the stream, the first of them being the client's packet number `k`. */
  function ReadFrames(n: Name, k: nat, b: Bytes): seq<Frame>
    decreases |b|
  {
    match ReadOne(Expected(n, k), b)
    case None => []
    case Some((f, rest)) => if |rest| < |b| then [f] + ReadFrames(n, k + 1, rest) else []
  }

  /** The bytes of packets, one after the other. */
  function WireAll(ps: seq<Sent>): Bytes {
    if ps == [] then [] else Wire(ps[0].frame) + WireAll(ps[1..])
  }

  function FramesOf(ps: seq<Sent>): (r: seq<Frame>)
    ensures |r| == |ps| && forall i :: 0 <= i < |ps| ==> r[i] == ps[i].frame
  {
    seq(|ps|, i requires 0 <= i < |ps| => ps[i].frame)
  }

  lemma {:induction false} WireAllAppend(ps: seq<Sent>, p: Sent)
    ensures WireAll(ps + [p]) == WireAll(ps) + Wire(p.frame)
  {
    hide Wire;
    if ps == [] {
      assert Wire(p.frame) + [] == [] + Wire(p.frame);
    } else {
      assert (ps + [p])[1..] == ps[1..] + [p];
      WireAllAppend(ps[1..], p);
    }
  }

  lemma FrameIsRead(f: Frame, rest: Bytes)
    ensures ReadOne(KindOf(f), Wire(f) + rest) == Some((f, rest))
    ensures |rest| < |Wire(f) + rest|
  {
    match f
    case PdpFrame(from, payload) => PdpIsRead(from, payload, rest);
    case Notice(from) => NoticeIsRead(from, rest);
    case PtpFrame(payload) => PtpIsRead(payload, rest);
  }

  /** What is read is of the kind that is expected. */
  lemma ReadIsExpected(kind: Kind, b: Bytes)
    ensures ReadOne(kind, b).Some? ==> KindOf(ReadOne(kind, b).value.0) == kind
  {
    hide Word16, Word32;
  }

  ghost predicate AsExpected(n: Name, k: nat, fs: seq<Frame>) {
    forall i :: 0 <= i < |fs| ==> KindOf(fs[i]) == Expected(n, k + i)
  }

  /** Packets need no framing: if each is what the client expects in its place, the bytes read back as just
      these packets. */
  lemma {:induction false} FramesAreRead(n: Name, k: nat, ps: seq<Sent>)
    requires AsExpected(n, k, FramesOf(ps))
    ensures ReadFrames(n, k, WireAll(ps)) == FramesOf(ps)
    decreases |ps|
  {
    hide Wire, ReadOne, Expected;
    if ps == [] {
      NothingIsRead(Expected(n, k));
    } else {
      var f, rest := ps[0].frame, WireAll(ps[1..]);
      assert FramesOf(ps)[0] == f;
      FrameIsRead(f, rest);
      forall i | 0 <= i < |FramesOf(ps[1..])| ensures KindOf(FramesOf(ps[1..])[i]) == Expected(n, k + 1 + i) {
        assert FramesOf(ps)[i + 1] == FramesOf(ps[1..])[i];
      }
      FramesAreRead(n, k + 1, ps[1..]);
      assert [f] + FramesOf(ps[1..]) == FramesOf(ps);
    }
  }

  lemma NothingIsRead(kind: Kind)
    ensures ReadOne(kind, []).None?
  {
  }

  /** Whatever is read is as expected. */
  lemma {:induction false} ReadAsExpected(n: Name, k: nat, b: Bytes)
    ensures AsExpected(n, k, ReadFrames(n, k, b))
    decreases |b|
  {
    hide ReadOne, Expected, KindOf;
    var one := ReadOne(Expected(n, k), b);
    if one.Some? && |one.value.1| < |b| {
      ReadIsExpected(Expected(n, k), b);
      ReadAsExpected(n, k + 1, one.value.1);
      var fs := ReadFrames(n, k, b);
      forall i | 0 <= i < |fs| ensures KindOf(fs[i]) == Expected(n, k + i) {
        if i > 0 { assert fs[i] == ReadFrames(n, k + 1, one.value.1)[i - 1]; }
      }
    }
  }

  // ---- what the relay's clients read -------------------------------------------------------------

  lemma {:induction false} NoticesCount(log: seq<Sent>, i: nat, j: nat)
    requires i < j < |log| && log[i].frame.Notice? && log[j].frame.Notice?
    ensures Notices(log) >= 2
  {
    var n := |log| - 1;
    if j < n {
      NoticesCount(log[..n], i, j);
    } else {
      NoticeCounts(log[..n], i);
    }
  }

  lemma {:induction false} NoticeCounts(log: seq<Sent>, i: nat)
    requires i < |log| && log[i].frame.Notice?
    ensures Notices(log) >= 1
  {
    var n := |log| - 1;
    if i < n { NoticeCounts(log[..n], i); }
  }

  /** All kinds but CONNECT are always sent what their clients expect; a CONNECT if and only if the first
      packet is a notice. */
  lemma LogsAreExpected(x: Session, ps: seq<Sent>)
    requires LogOk(x) && ps <= x.log
    ensures AsExpected(x.name, 0, FramesOf(ps)) <==> x.name.ConnectName? ==> ps == [] || ps[0].frame.Notice?
  {
    var fs := FramesOf(ps);
    if x.name.ConnectName? && ps != [] && !ps[0].frame.Notice? {
      assert KindOf(fs[0]) != Expected(x.name, 0 + 0);
    } else {
      forall i | 0 <= i < |fs| ensures KindOf(fs[i]) == Expected(x.name, 0 + i) {
        assert fs[i] == x.log[i].frame && Fits(x.name, i, x.log[i].frame);
        if x.name.ConnectName? && i > 0 && x.log[i].frame.Notice? { NoticesCount(x.log, 0, i); }
      }
    }
  }

  lemma StreamReads(x: Session, ps: seq<Sent>)
    requires LogOk(x) && ps <= x.log
    ensures ReadFrames(x.name, 0, WireAll(ps)) == FramesOf(ps) <==>
            x.name.ConnectName? ==> ps == [] || ps[0].frame.Notice?
  {
    hide LogOk, WireAll, ReadFrames;
    LogsAreExpected(x, ps);
    if AsExpected(x.name, 0, FramesOf(ps)) { FramesAreRead(x.name, 0, ps); }
    ReadAsExpected(x.name, 0, WireAll(ps));
  }

  lemma DeliveredOfLog(x: Session)
    requires QueueOk(x)
    ensures x.delivered <= x.log
  {
  }

  /** In every run the bytes that were written to a client of a PDP, LISTEN or ACCEPT session read back as just
      the packets that were delivered, in order; those of a CONNECT do if and only if the first of them is its
      peer's notice. */
  lemma StreamRoundTrip(es: seq<Event>, s: Sid)
    requires Schedulable(INITIAL, es) && s in Run(INITIAL, es).sess
    ensures var x := Run(INITIAL, es).sess[s];
            ReadFrames(x.name, 0, WireAll(x.delivered)) == FramesOf(x.delivered) <==>
            x.name.ConnectName? ==> x.delivered == [] || x.delivered[0].frame.Notice?
  {
    Reachable(es);
    LocalAt(Run(INITIAL, es), s);
    var x := Run(INITIAL, es).sess[s];
    hide Inv, Run, Schedulable, ControlOk, LogOk, QueueOk;
    DeliveredOfLog(x);
    StreamReads(x, x.delivered);
  }
}
