/** PDP datagrams: what a session accepts from another is what the other sent to its name, in order. */
module RelayDatagrams {
  import opened Bytes
  import opened SessionNames
  import opened RelayDirectories
  import opened RelayModel
  import opened RelayInvariant
  import opened RelayFinish
  import opened RelayRuns
  import opened RelayHistory
  import opened RelayPorts
  import opened RelayTheorems

  // ---- the blocks of a stream -------------------------------------------------------------------

  datatype Datagram = Datagram(target: Name, payload: Bytes)

  /** Where the first block of a PDP stream ends, header included. */
  function BlockEnd(input: Bytes): nat
    requires |input| >= 14
  {
    14 + PdpSize(input[..14])
  }

  predicate WholeBlock(input: Bytes) { |input| >= 14 && |input| >= BlockEnd(input) }

  /** The whole blocks that the bytes of a PDP client make. */
  function Blocks(input: Bytes): seq<Datagram>
    decreases |input|
  {
    if !WholeBlock(input) then []
    else [Datagram(PdpTarget(input[..14]), input[14..BlockEnd(input)])] + Blocks(input[BlockEnd(input)..])
  }

  /** What follows the last whole block. */
  function Rest(input: Bytes): Bytes
    decreases |input|
  {
    if !WholeBlock(input) then input else Rest(input[BlockEnd(input)..])
  }

  /** The parse of more bytes takes up where the parse of the first ones stopped. */
  lemma {:induction false} BlocksAppend(input: Bytes, raw: Bytes)
    ensures Blocks(input + raw) == Blocks(input) + Blocks(Rest(input) + raw)
    ensures Rest(input + raw) == Rest(Rest(input) + raw)
    decreases |input|
  {
    hide PdpSize, PdpTarget;
    if WholeBlock(input) {
      var k := BlockEnd(input);
      assert (input + raw)[..14] == input[..14] && (input + raw)[14..k] == input[14..k];
      assert (input + raw)[k..] == input[k..] + raw;
      BlocksAppend(input[k..], raw);
    }
  }

  /** A header that announces a payload is no block yet. */
  lemma HeaderAlone(raw: Bytes)
    requires |raw| == 14 && PdpSize(raw) > 0
    ensures Blocks(raw) == [] && Rest(raw) == raw
  {
    hide PdpSize, PdpTarget;
    assert raw[..14] == raw;
  }

  /** A header and as many bytes as it announces are one block. */
  lemma OneBlock(header: Bytes, raw: Bytes)
    requires |header| == 14 && PdpSize(header) == |raw|
    ensures Blocks(header + raw) == [Datagram(PdpTarget(header), raw)] && Rest(header + raw) == []
  {
    hide PdpSize, PdpTarget;
    var all := header + raw;
    assert all[..14] == header && all[14..BlockEnd(all)] == raw && all[BlockEnd(all)..] == [];
  }

  // ---- what was sent and what was accepted ------------------------------------------------------

  /** The payloads of the blocks that name `n`. */
  ghost function To(blocks: seq<Datagram>, n: Name): seq<Bytes> {
    if blocks == [] then []
    else
      var last := blocks[|blocks| - 1];
      To(blocks[..|blocks| - 1], n) + if last.target == n then [last.payload] else []
  }

  /** The payloads of the PDP frames in `log` that `s` sent. */
  ghost function From(log: seq<Sent>, s: Sid): seq<Bytes> {
    if log == [] then []
    else
      var last := log[|log| - 1];
      From(log[..|log| - 1], s) + if last.src == s && last.frame.PdpFrame? then [last.frame.payload] else []
  }

  lemma ToAppend(blocks: seq<Datagram>, d: Datagram, n: Name)
    ensures To(blocks + [d], n) == To(blocks, n) + if d.target == n then [d.payload] else []
  {
    assert (blocks + [d])[..|blocks|] == blocks;
  }

  lemma FromAppend(log: seq<Sent>, p: Sent, s: Sid)
    ensures From(log + [p], s) == From(log, s) + if p.src == s && p.frame.PdpFrame? then [p.frame.payload] else []
  {
    assert (log + [p])[..|log|] == log;
  }

  lemma {:induction false} FromNothing(log: seq<Sent>, s: Sid)
    requires forall i :: 0 <= i < |log| ==> !(log[i].src == s && log[i].frame.PdpFrame?)
    ensures From(log, s) == []
  {
    if log != [] { FromNothing(log[..|log| - 1], s); }
  }

  /** A log that grows by other packets only has the same PDP frames. */
  lemma {:induction false} FromSame(log: seq<Sent>, more: seq<Sent>, s: Sid)
    requires log <= more && forall i :: |log| <= i < |more| ==> !more[i].frame.PdpFrame?
    ensures From(more, s) == From(log, s)
    decreases |more|
  {
    if log != more {
      assert log <= more[..|more| - 1];
      FromSame(log, more[..|more| - 1], s);
    } else {
      assert more == log;
    }
  }

  /** `got` stands in `sent` from position `i` on, in one piece; at its end, if `all`. */
  ghost predicate RunAt(sent: seq<Bytes>, got: seq<Bytes>, i: nat, all: bool) {
    i + |got| <= |sent| && sent[i..i + |got|] == got && (all ==> i + |got| == |sent|)
  }

  /** `got` is one uninterrupted piece of `sent`; its end, if `all`. */
  ghost predicate Arrived(sent: seq<Bytes>, got: seq<Bytes>, all: bool) {
    exists i: nat :: RunAt(sent, got, i, all)
  }

  lemma NothingArrived(sent: seq<Bytes>, all: bool)
    ensures Arrived(sent, [], all)
  {
    assert RunAt(sent, [], |sent|, all);
  }

  lemma ArrivedLess(sent: seq<Bytes>, got: seq<Bytes>, all: bool, less: bool)
    requires Arrived(sent, got, all) && (less ==> all)
    ensures Arrived(sent, got, less)
  {
    var i: nat :| RunAt(sent, got, i, all);
    assert RunAt(sent, got, i, less);
  }

  lemma BothGrow(sent: seq<Bytes>, got: seq<Bytes>, b: Bytes, all: bool)
    requires Arrived(sent, got, true)
    ensures Arrived(sent + [b], got + [b], all)
  {
    var i: nat :| RunAt(sent, got, i, true);
    assert (sent + [b])[i..i + |got| + 1] == sent[i..] + [b];
    assert RunAt(sent + [b], got + [b], i, all);
  }

  lemma OnlySentGrows(sent: seq<Bytes>, got: seq<Bytes>, b: Bytes)
    requires Arrived(sent, got, false)
    ensures Arrived(sent + [b], got, false)
  {
    var i: nat :| RunAt(sent, got, i, false);
    assert (sent + [b])[i..i + |got|] == sent[i..i + |got|];
    assert RunAt(sent + [b], got, i, false);
  }

  // ---- the invariant ----------------------------------------------------------------------------

  /** `x` sends and `y` receives: what `y` took is one piece of what was sent to its name, and nothing
      after it was missed while `y` is open. */
  ghost predicate Flow(x: Session, s: Sid, y: Session) {
    Arrived(To(Blocks(x.input), y.name), From(y.log, s), !y.closed)
  }

  ghost predicate Flows(st: State) {
    forall s, t :: s in st.sess && t in st.sess ==> Flow(st.sess[s], s, st.sess[t])
  }

  /** A PDP session awaits a header between blocks, and a payload after the header that announced it. */
  ghost predicate Aligned(x: Session) {
    x.registered && x.name.PdpName? ==>
      && (x.pc.ReadPdpHeader? ==> Rest(x.input) == [])
      && (x.pc.ReadPdpBlock? ==>
            && |Rest(x.input)| == 14
            && PdpTarget(Rest(x.input)) == x.pc.target && PdpSize(Rest(x.input)) == x.pc.size)
  }

  ghost predicate AllAligned(st: State) { forall s :: s in st.sess ==> Aligned(st.sess[s]) }

  /** Only PDP sessions send PDP frames. */
  lemma OthersSendNone(st: State, s: Sid, t: Sid)
    requires Inv(st) && t in st.sess && !(s in st.sess && st.sess[s].registered && st.sess[s].name.PdpName?)
    ensures From(st.sess[t].log, s) == []
  {
    assert Origins(st);
    hide Inv, From;
    forall i | 0 <= i < |st.sess[t].log| ensures !(st.sess[t].log[i].src == s && st.sess[t].log[i].frame.PdpFrame?) {
      assert Genuine(st.sess[t].name, st.sess[st.sess[t].log[i].src], st.sess[t].log[i].frame);
    }
    FromNothing(st.sess[t].log, s);
  }

  lemma UnregisteredLog(st: State, t: Sid)
    requires Inv(st) && t in st.sess && !st.sess[t].registered
    ensures st.sess[t].log == []
  {
    LocalAt(st, t);
    hide Inv, LocalOk, NotWaiting;
  }

  /** What is not a PDP forward keeps the flow between two sessions. */
  lemma EchoFlow(x: Session, x': Session, s: Sid, y: Session, y': Session, t: Sid, e: Sid)
    requires Flow(x, s, y) && Echo(x, x', s == e, e) && Echo(y, y', t == e, e)
    requires !y.registered ==> y.log == []
    ensures Flow(x', s, y')
  {
    hide Blocks, To;
    FromSame(y.log, y'.log, s);
    if y.registered {
      ArrivedLess(To(Blocks(x.input), y.name), From(y.log, s), !y.closed, !y'.closed);
    } else {
      NothingArrived(To(Blocks(x'.input), y'.name), !y'.closed);
    }
  }

  lemma OpenIsIndexed(st: State, t: Sid)
    requires Inv(st) && t in st.sess && st.sess[t].registered && !st.sess[t].closed
    ensures st.sess[t].name in st.reg && st.reg[st.sess[t].name] == t
  {
    LocalAt(st, t);
    ShapeParts(st);
    hide Inv, LocalOk, NotWaiting, Waiting, Counted, ControlOk, Index, Holder;
    OpenHolds(st.sess[t]);
    HolderIndexed(st, t);
  }

  lemma OpenHolds(x: Session)
    requires ControlOk(x) && x.registered && !x.closed
    ensures Holder(x)
  {
  }

  lemma HolderIndexed(st: State, t: Sid)
    requires Index(st) && t in st.sess && Holder(st.sess[t])
    ensures st.sess[t].name in st.reg && st.reg[st.sess[t].name] == t
  {
  }

  lemma IndexedName(st: State, n: Name)
    requires Inv(st) && n in st.reg
    ensures st.reg[n] in st.sess && st.sess[st.reg[n]].name == n
  {
    assert Index(st);
    hide Inv;
  }

  /** Bytes that complete no block, or come from no PDP session, change no flow. */
  lemma RecordFlow(st: State, u: Sid, y: Session, s: Sid, t: Sid)
    requires u in st.sess && s in st.sess && t in st.sess && Flow(st.sess[s], s, st.sess[t])
    requires y == st.sess[u].(input := y.input, pc := y.pc)
    requires From(st.sess[t].log, u) == [] || Blocks(y.input) == Blocks(st.sess[u].input)
    ensures var q := Put(st, u, y); Flow(q.sess[s], s, q.sess[t])
  {
    hide Blocks, To, From, Arrived;
    if From(st.sess[t].log, u) == [] {
      NothingArrived(To(Blocks(y.input), st.sess[t].name), !st.sess[t].closed);
    }
  }

  /** An open session has the name that the block is for. */
  predicate Takes(st: State, t: Sid, target: Name)
    requires t in st.sess
  {
    target in st.reg && st.reg[target] == t && !st.sess[t].closed
  }

  /** Session `t`, now `y`, when one frame from `u` went to `target`, if an open session has that name. */
  ghost predicate HandedSession(st: State, u: Sid, raw: Bytes, target: Name, p: Sent, t: Sid, y: Session)
    requires t in st.sess
  {
    var x := st.sess[t];
    && y.name == x.name && (x.closed ==> y.closed)
    && y.input == (if t == u then x.input + raw else x.input)
    && y.log == (if Takes(st, t, target) then x.log + [p] else x.log)
  }

  ghost predicate HandedTo(st: State, u: Sid, raw: Bytes, target: Name, p: Sent, q: State) {
    && q.sess.Keys == st.sess.Keys
    && forall t :: t in st.sess ==> HandedSession(st, u, raw, target, p, t, q.sess[t])
  }

  lemma QueuedLooks(x: Session, p: Sent)
    ensures var y := Queued(x, p);
            && y.name == x.name && y.input == x.input && (x.closed ==> y.closed)
            && y.log == if x.closed then x.log else x.log + [p]
  {
    hide Size;
  }

  lemma HandedLooks(st: State, u: Sid, raw: Bytes, target: Name, p: Sent)
    requires u in st.sess
    ensures HandedTo(st, u, raw, target, p, SendTo(Consume(st, u, raw), target, p))
  {
    var q := SendTo(Consume(st, u, raw), target, p);
    assert q.sess.Keys == st.sess.Keys by { hide Queued; }
    forall t | t in st.sess ensures HandedSession(st, u, raw, target, p, t, q.sess[t]) {
      QueuedLooks(Consume(st, u, raw).sess[t], p);
      hide Queued;
    }
  }

  lemma FlowIs(x: Session, s: Sid, y: Session)
    ensures Flow(x, s, y) <==> Arrived(To(Blocks(x.input), y.name), From(y.log, s), !y.closed)
  {
  }

  lemma HandedFacts(st: State, u: Sid, raw: Bytes, target: Name, p: Sent, t: Sid, y: Session)
    requires t in st.sess && HandedSession(st, u, raw, target, p, t, y)
    ensures y.name == st.sess[t].name && (st.sess[t].closed ==> y.closed)
    ensures y.input == if t == u then st.sess[t].input + raw else st.sess[t].input
    ensures y.log == if Takes(st, t, target) then st.sess[t].log + [p] else st.sess[t].log
  {
  }

  /** A whole block of `u` is handed over: every flow goes on. */
  lemma BlockFlow(st: State, u: Sid, raw: Bytes, target: Name, p: Sent, s: Sid, t: Sid, x': Session, y': Session)
    requires Inv(st) && u in st.sess && s in st.sess && t in st.sess && Flow(st.sess[s], s, st.sess[t])
    requires HandedSession(st, u, raw, target, p, s, x') && HandedSession(st, u, raw, target, p, t, y')
    requires p.src == u && p.frame.PdpFrame?
    requires Blocks(st.sess[u].input + raw) == Blocks(st.sess[u].input) + [Datagram(target, p.frame.payload)]
    ensures Flow(x', s, y')
  {
    hide *;
    var x, y := st.sess[s], st.sess[t];
    FlowIs(x, s, y);
    FlowIs(x', s, y');
    HandedFacts(st, u, raw, target, p, s, x');
    HandedFacts(st, u, raw, target, p, t, y');
    FromAppend(y.log, p, s);
    if s != u {
      NoneOfThese(y.log, p, s);
      ArrivedLess(To(Blocks(x.input), y.name), From(y.log, s), !y.closed, !y'.closed);
    } else {
      ToAppend(Blocks(x.input), Datagram(target, p.frame.payload), y.name);
      if Takes(st, t, target) {
        TakerIsTarget(st, t, target);
        BothGrow(To(Blocks(x.input), y.name), From(y.log, s), p.frame.payload, !y'.closed);
      } else {
        NotTaken(st, s, t, target, p.frame.payload, y'.closed);
      }
    }
  }

  lemma NoneOfThese(log: seq<Sent>, p: Sent, s: Sid)
    requires p.src != s
    ensures From(log + [p], s) == From(log, s)
  {
    FromAppend(log, p, s);
  }

  lemma TakerIsTarget(st: State, t: Sid, target: Name)
    requires Inv(st) && t in st.sess && Takes(st, t, target)
    ensures st.sess[t].name == target && !st.sess[t].closed
  {
    hide Inv;
    IndexedName(st, target);
  }

  /** A block that `t` does not take names another session, or comes after `t` was closed or before it
      registered. */
  lemma NotTaken(st: State, s: Sid, t: Sid, target: Name, b: Bytes, shut: bool)
    requires Inv(st) && s in st.sess && t in st.sess && Flow(st.sess[s], s, st.sess[t])
    requires !Takes(st, t, target) && (st.sess[t].closed ==> shut)
    ensures var x, y := st.sess[s], st.sess[t];
            Arrived(To(Blocks(x.input), y.name) + if target == y.name then [b] else [], From(y.log, s), !shut)
  {
    hide *;
    var x, y := st.sess[s], st.sess[t];
    var sent, got := To(Blocks(x.input), y.name), From(y.log, s);
    FlowIs(x, s, y);
    if !y.registered {
      UnregisteredLog(st, t);
      NothingFrom(s);
      NothingArrived(sent + if target == y.name then [b] else [], !shut);
    } else {
      OpenTakesItsOwn(st, t);
      if target != y.name {
        assert sent + [] == sent;
        ArrivedLess(sent, got, !y.closed, !shut);
      } else {
        OnlySentGrows(sent, got, b);
      }
    }
  }

  lemma NothingFrom(s: Sid)
    ensures From([], s) == []
  {
  }

  lemma OpenTakesItsOwn(st: State, t: Sid)
    requires Inv(st) && t in st.sess && st.sess[t].registered
    ensures Takes(st, t, st.sess[t].name) <==> !st.sess[t].closed
  {
    hide Inv;
    if !st.sess[t].closed { OpenIsIndexed(st, t); }
  }

  lemma PdpReader(st: State, u: Sid)
    requires Inv(st) && u in st.sess
    ensures st.sess[u].pc.ReadPdpHeader? || st.sess[u].pc.ReadPdpBlock? ==>
              st.sess[u].registered && st.sess[u].name.PdpName?
    ensures st.sess[u].pc.ReadPtpHeader? || st.sess[u].pc.ReadPtpBlock? ==>
              st.sess[u].registered && IsPtpPipe(st.sess[u].name)
  {
    LocalAt(st, u);
    hide Inv, LocalOk, NotWaiting;
  }

  lemma HandsOverEmpty(st: State, u: Sid, raw: Bytes)
    requires u in st.sess && |raw| == 14 && PdpSize(raw) == 0
    ensures PdpHeaderHanded(st, u, raw)
         == SendTo(Consume(st, u, raw), PdpTarget(raw), Sent(u, PdpFrame(st.sess[u].name.src, [])))
  {
    hide SendTo, PdpSize, PdpTarget;
  }

  lemma SoleHeader(input: Bytes, raw: Bytes)
    requires Rest(input) == [] && |raw| == 14
    ensures PdpSize(raw) == 0 ==>
              Blocks(input + raw) == Blocks(input) + [Datagram(PdpTarget(raw), [])] && Rest(input + raw) == []
    ensures PdpSize(raw) > 0 ==> Blocks(input + raw) == Blocks(input) && Rest(input + raw) == raw
  {
    BlocksAppend(input, raw);
    hide *;
    assert [] + raw == raw && raw + [] == raw && Blocks(input) + [] == Blocks(input);
    if PdpSize(raw) == 0 { OneBlock(raw, []); } else { HeaderAlone(raw); }
  }

  lemma EmptyBlockFlow(st: State, u: Sid, raw: Bytes, s: Sid, t: Sid)
    requires Inv(st) && u in st.sess && Rest(st.sess[u].input) == [] && |raw| == 14 && PdpSize(raw) == 0
    requires s in st.sess && t in st.sess && Flow(st.sess[s], s, st.sess[t])
    ensures var h := PdpHeaderHanded(st, u, raw);
            s in h.sess && t in h.sess && Flow(h.sess[s], s, h.sess[t])
  {
    hide *;
    var p := Sent(u, PdpFrame(st.sess[u].name.src, []));
    var h := PdpHeaderHanded(st, u, raw);
    HandsOverEmpty(st, u, raw);
    SoleHeader(st.sess[u].input, raw);
    HandedLooks(st, u, raw, PdpTarget(raw), p);
    HandedAt(st, u, raw, PdpTarget(raw), p, h, s);
    HandedAt(st, u, raw, PdpTarget(raw), p, h, t);
    BlockFlow(st, u, raw, PdpTarget(raw), p, s, t, h.sess[s], h.sess[t]);
  }

  lemma HandedAt(st: State, u: Sid, raw: Bytes, target: Name, p: Sent, q: State, t: Sid)
    requires HandedTo(st, u, raw, target, p, q) && t in st.sess
    ensures t in q.sess && HandedSession(st, u, raw, target, p, t, q.sess[t])
  {
    hide HandedSession;
  }

  lemma HandedInput(st: State, u: Sid, raw: Bytes, target: Name, p: Sent)
    requires u in st.sess
    ensures var h := SendTo(Consume(st, u, raw), target, p);
            u in h.sess && h.sess[u].input == st.sess[u].input + raw
  {
    HandedLooks(st, u, raw, target, p);
    hide SendTo, Consume;
  }

  lemma BeginsBlock(st: State, u: Sid, raw: Bytes)
    requires u in st.sess && |raw| == 14 && 0 < PdpSize(raw) <= PDP_BLOCK_LIMIT
    ensures var x, h := st.sess[u], PdpHeaderHanded(st, u, raw);
            && u in h.sess && h == Put(st, u, h.sess[u])
            && h.sess[u] == x.(input := x.input + raw, pc := ReadPdpBlock(PdpTarget(raw), PdpSize(raw)))
  {
    hide PdpSize, PdpTarget;
    assert forall y, z :: Put(Put(st, u, y), u, z) == Put(st, u, z);
  }

  lemma BegunBlockFlow(st: State, u: Sid, raw: Bytes, s: Sid, t: Sid)
    requires u in st.sess && Rest(st.sess[u].input) == [] && |raw| == 14 && 0 < PdpSize(raw) <= PDP_BLOCK_LIMIT
    requires s in st.sess && t in st.sess && Flow(st.sess[s], s, st.sess[t])
    ensures var h := PdpHeaderHanded(st, u, raw);
            s in h.sess && t in h.sess && Flow(h.sess[s], s, h.sess[t])
  {
    BeginsBlock(st, u, raw);
    SoleHeader(st.sess[u].input, raw);
    hide Blocks, Rest, Flow, PdpTarget, PdpSize, PdpHeaderHanded;
    RecordFlow(st, u, PdpHeaderHanded(st, u, raw).sess[u], s, t);
  }

  lemma HeaderOf(x: Session)
    requires Aligned(x) && x.registered && x.name.PdpName? && x.pc.ReadPdpBlock?
    ensures |Rest(x.input)| == 14 && PdpTarget(Rest(x.input)) == x.pc.target && PdpSize(Rest(x.input)) == x.pc.size
  {
    hide Rest, PdpTarget, PdpSize;
  }

  lemma PayloadFlow(st: State, u: Sid, raw: Bytes, s: Sid, t: Sid)
    requires Inv(st) && u in st.sess && st.sess[u].pc.ReadPdpBlock? && Aligned(st.sess[u])
    requires |raw| == st.sess[u].pc.size
    requires s in st.sess && t in st.sess && Flow(st.sess[s], s, st.sess[t])
    ensures var h := SendTo(Consume(st, u, raw), st.sess[u].pc.target, Sent(u, PdpFrame(st.sess[u].name.src, raw)));
            s in h.sess && t in h.sess && Flow(h.sess[s], s, h.sess[t])
  {
    var x := st.sess[u];
    var p := Sent(u, PdpFrame(x.name.src, raw));
    var h := SendTo(Consume(st, u, raw), x.pc.target, p);
    PdpReader(st, u);
    BlocksAppend(x.input, raw);
    hide *;
    HandedLooks(st, u, raw, x.pc.target, p);
    HandedAt(st, u, raw, x.pc.target, p, h, s);
    HandedAt(st, u, raw, x.pc.target, p, h, t);
    HeaderOf(x);
    OneBlock(Rest(x.input), raw);
    BlockFlow(st, u, raw, x.pc.target, p, s, t, h.sess[s], h.sess[t]);
  }

  lemma PipeFlow(st: State, u: Sid, raw: Bytes, s: Sid, t: Sid)
    requires Inv(st) && u in st.sess && IsPtpPipe(st.sess[u].name)
    requires s in st.sess && t in st.sess && Flow(st.sess[s], s, st.sess[t])
    ensures var h := Consume(st, u, raw); Flow(h.sess[s], s, h.sess[t])
  {
    OthersSendNone(st, u, t);
    hide Inv, Flow, Blocks, From;
    RecordFlow(st, u, st.sess[u].(input := st.sess[u].input + raw), s, t);
  }

  lemma HeaderFlow(st: State, u: Sid, raw: Bytes, s: Sid, t: Sid)
    requires Inv(st) && u in st.sess && st.sess[u].pc.ReadPdpHeader? && Aligned(st.sess[u])
    requires |raw| == 14 && PdpSize(raw) <= PDP_BLOCK_LIMIT
    requires s in st.sess && t in st.sess && Flow(st.sess[s], s, st.sess[t])
    ensures var h := PdpHeaderHanded(st, u, raw); s in h.sess && t in h.sess && Flow(h.sess[s], s, h.sess[t])
  {
    PdpReader(st, u);
    hide Inv, Flow, Rest, PdpSize, PdpHeaderHanded;
    if PdpSize(raw) == 0 { EmptyBlockFlow(st, u, raw, s, t); } else { BegunBlockFlow(st, u, raw, s, t); }
  }

  /** Whatever the event reads and forwards, the flows go on. */
  lemma HandedFlow(st: State, e: Event, s: Sid, t: Sid)
    requires Inv(st) && Enabled(st, e) && AllAligned(st)
    requires s in st.sess && t in st.sess && Flow(st.sess[s], s, st.sess[t])
    ensures var h := Handed(st, e); s in h.sess && t in h.sess && Flow(h.sess[s], s, h.sess[t])
  {
    hide Inv, Flow, Aligned, PdpSize, PdpTarget, GetU32, SendTo, PdpHeaderHanded;
    match e
    case HeaderRead(u, raw) =>
      if raw.Some? && !Oversized(st.sess[u].pc, raw.value) {
        if st.sess[u].pc.ReadPdpHeader? {
          HeaderFlow(st, u, raw.value, s, t);
        } else {
          PipeFlow(st, u, raw.value, s, t);
        }
      }
    case BlockRead(u, raw) =>
      if raw.Some? {
        if st.sess[u].pc.ReadPdpBlock? {
          PayloadFlow(st, u, raw.value, s, t);
        } else {
          PipeFlow(st, u, raw.value, s, t);
        }
      }
    case _ =>
  }

  // ---- one step ---------------------------------------------------------------------------------

  /** Reading and forwarding leave the other sessions' inputs, names and reads alone. */
  ghost predicate Apart(x: Session, y: Session) {
    && y.input == x.input && y.name == x.name && y.registered == x.registered
    && (y.pc == x.pc || y.pc.AwaitBond?)
  }

  lemma QueuedApart(x: Session, p: Sent)
    ensures Apart(x, Queued(x, p)) && Apart(x, x)
  {
    hide Size;
  }

  lemma SendToApart(st: State, u: Sid, raw: Bytes, target: Name, p: Sent, t: Sid)
    requires u in st.sess && t in st.sess && t != u
    ensures var h := SendTo(Consume(st, u, raw), target, p); t in h.sess && Apart(st.sess[t], h.sess[t])
  {
    QueuedApart(st.sess[t], p);
    hide Queued, Apart;
  }

  lemma HandedApart(st: State, e: Event, t: Sid)
    requires Enabled(st, e) && t in st.sess && t != e.s
    ensures var h := Handed(st, e); t in h.sess && Apart(st.sess[t], h.sess[t])
  {
    hide SendTo, PdpSize, PdpTarget, GetU32, Apart;
    if e.HeaderRead? && e.raw.Some? && st.sess[e.s].pc.ReadPdpHeader? {
      SendToApart(st, e.s, e.raw.value, PdpTarget(e.raw.value), Sent(e.s, PdpFrame(st.sess[e.s].name.src, [])), t);
    } else if e.BlockRead? && e.raw.Some? && st.sess[e.s].pc.ReadPdpBlock? {
      var x := st.sess[e.s];
      SendToApart(st, e.s, e.raw.value, x.pc.target, Sent(e.s, PdpFrame(x.name.src, e.raw.value)), t);
    }
    QueuedApart(st.sess[t], Sent(e.s, PtpFrame([])));
  }

  lemma BystanderAligned(x: Session, h: Session, y: Session, e: Sid)
    requires Aligned(x) && Apart(x, h) && Echo(h, y, false, e)
    ensures Aligned(y)
  {
    hide Rest, Evolves;
  }

  lemma LoopTopPc(st: State, s: Sid, next: Pc)
    requires s in st.sess
    ensures var q := LoopTop(st, s, next); s in q.sess && (q.sess[s].pc == next || q.sess[s].finished)
  {
    FinishIsFinished(st, s);
    hide Finish;
  }

  lemma DoneAligned(q: State, s: Sid)
    requires Inv(q) && s in q.sess && q.sess[s].finished
    ensures Aligned(q.sess[s])
  {
    LocalAt(q, s);
    hide Inv, LocalOk, NotWaiting, Rest;
  }

  lemma BetweenBlocks(q: State, h: State, s: Sid)
    requires s in h.sess && Rest(h.sess[s].input) == [] && q == LoopTop(h, s, ReadPdpHeader) && Inv(q)
    requires Acts(h, s, q)
    ensures s in q.sess && Aligned(q.sess[s])
  {
    LoopTopPc(h, s, ReadPdpHeader);
    hide Inv, LoopTop, Rest, Evolves;
    if q.sess[s].finished { DoneAligned(q, s); }
  }

  lemma AtHeader(st: State, s: Sid)
    requires Inv(st) && s in st.sess && st.sess[s].pc.ReadPdpHeader? && Aligned(st.sess[s])
    ensures Rest(st.sess[s].input) == []
  {
    PdpReader(st, s);
    hide Inv, Rest;
  }

  lemma HeaderLoops(st: State, s: Sid, raw: Bytes)
    requires s in st.sess && |raw| == 14 && PdpSize(raw) == 0
    ensures s in PdpHeaderHanded(st, s, raw).sess
    ensures PdpHeaderRead(st, s, raw) == LoopTop(PdpHeaderHanded(st, s, raw), s, ReadPdpHeader)
  {
    hide PdpTarget, PdpSize, SendTo, LoopTop;
    HandedInput(st, s, raw, PdpTarget(raw), Sent(s, PdpFrame(st.sess[s].name.src, [])));
  }

  lemma HeaderBegins(st: State, s: Sid, raw: Bytes)
    requires s in st.sess && |raw| == 14 && 0 < PdpSize(raw) <= PDP_BLOCK_LIMIT
    ensures PdpHeaderRead(st, s, raw) == PdpHeaderHanded(st, s, raw)
  {
    hide PdpTarget, PdpSize;
  }

  lemma BegunAligned(x: Session, header: Bytes)
    requires |header| == 14 && Rest(x.input) == header && x.pc.ReadPdpBlock?
    requires x.pc.target == PdpTarget(header) && x.pc.size == PdpSize(header)
    ensures Aligned(x)
  {
  }

  lemma PdpHeaderAligned(st: State, s: Sid, raw: Bytes)
    requires Inv(st) && s in st.sess && st.sess[s].pc.ReadPdpHeader? && Aligned(st.sess[s]) && |raw| == 14
    requires Inv(PdpHeaderRead(st, s, raw))
    ensures s in PdpHeaderRead(st, s, raw).sess && Aligned(PdpHeaderRead(st, s, raw).sess[s])
  {
    hide *;
    AtHeader(st, s);
    SoleHeader(st.sess[s].input, raw);
    PdpHeaderIs(st, s, raw);
    var q := PdpHeaderRead(st, s, raw);
    if PdpSize(raw) > PDP_BLOCK_LIMIT {
      FinishIsFinished(st, s);
      DoneAligned(q, s);
    } else if PdpSize(raw) == 0 {
      PdpHeaderActs(st, s, raw);
      HeaderLoops(st, s, raw);
      HandsOverEmpty(st, s, raw);
      HandedInput(st, s, raw, PdpTarget(raw), Sent(s, PdpFrame(st.sess[s].name.src, [])));
      BetweenBlocks(q, PdpHeaderHanded(st, s, raw), s);
    } else {
      HeaderBegins(st, s, raw);
      BeginsBlock(st, s, raw);
      BegunAligned(q.sess[s], raw);
    }
  }

  lemma BlockLoops(st: State, s: Sid, raw: Bytes)
    requires Enabled(st, BlockRead(s, Some(raw))) && st.sess[s].pc.ReadPdpBlock?
    ensures s in st.sess
    ensures var e := BlockRead(s, Some(raw)); var h := Handed(st, e);
            && s in h.sess && h.sess[s].input == st.sess[s].input + raw
            && |raw| == st.sess[s].pc.size && Step(st, e) == LoopTop(h, s, ReadPdpHeader)
  {
    hide SendTo, LoopTop;
    HandedInput(st, s, raw, st.sess[s].pc.target, Sent(s, PdpFrame(st.sess[s].name.src, raw)));
  }

  lemma PayloadAligned(st: State, s: Sid, raw: Bytes)
    requires Inv(st) && Enabled(st, BlockRead(s, Some(raw))) && st.sess[s].pc.ReadPdpBlock? && Aligned(st.sess[s])
    ensures var q := Step(st, BlockRead(s, Some(raw))); s in q.sess && Aligned(q.sess[s])
  {
    var e := BlockRead(s, Some(raw));
    hide *;
    StepKeeps(st, e);
    StepActs(st, e);
    BlockLoops(st, s, raw);
    PdpReader(st, s);
    HeaderOf(st.sess[s]);
    BlocksAppend(st.sess[s].input, raw);
    OneBlock(Rest(st.sess[s].input), raw);
    BetweenBlocks(Step(st, e), Handed(st, e), s);
  }

  /** Outside PDP nothing is asked. */
  lemma NamedOtherwise(st: State, q: State, s: Sid)
    requires s in st.sess && st.sess[s].registered && !st.sess[s].name.PdpName? && Grows(st, q)
    ensures s in q.sess && Aligned(q.sess[s])
  {
    hide Rest;
  }

  lemma NothingReadYet(h: State, q: State, s: Sid)
    requires Acts(h, s, q) && s in h.sess && h.sess[s].input == [] && !h.sess[s].pc.ReadPdpBlock?
    ensures s in q.sess && Aligned(q.sess[s])
  {
  }

  lemma WriterAligned(x: Session)
    requires Aligned(x)
    ensures Aligned(WriterLoop(x))
    ensures x.writer.Writing? ==> forall ok :: Aligned(WriteDone(x, ok))
  {
    hide Rest, Size, PdpSize, PdpTarget;
  }

  lemma EarlyPcs(st: State, s: Sid)
    requires Inv(st) && s in st.sess
    ensures st.sess[s].pc.ReadInit? || st.sess[s].pc.AwaitListen? ==> st.sess[s].input == []
    ensures st.sess[s].pc.AwaitBond? || st.sess[s].pc.ReadSome? ==>
              st.sess[s].registered && !st.sess[s].name.PdpName?
  {
    LocalAt(st, s);
    hide Inv, LocalOk, NotWaiting;
  }

  lemma ReadAligned(st: State, e: Event)
    requires Inv(st) && Enabled(st, e) && (e.HeaderRead? || e.BlockRead?) && e.s in st.sess && Aligned(st.sess[e.s])
    ensures e.s in Step(st, e).sess && Aligned(Step(st, e).sess[e.s])
  {
    PdpReader(st, e.s);
    hide Inv, Step, Aligned;
    if e.raw.None? {
      BrokenAligned(st, e);
    } else if e.HeaderRead? && st.sess[e.s].pc.ReadPdpHeader? {
      HeaderAligned(st, e.s, e.raw.value);
    } else if e.BlockRead? && st.sess[e.s].pc.ReadPdpBlock? {
      PayloadAligned(st, e.s, e.raw.value);
    } else {
      StepGrows(st, e);
      NamedOtherwise(st, Step(st, e), e.s);
    }
  }

  lemma BrokenAligned(st: State, e: Event)
    requires Inv(st) && Enabled(st, e) && (e.HeaderRead? || e.BlockRead?) && e.raw.None?
    ensures e.s in Step(st, e).sess && Aligned(Step(st, e).sess[e.s])
  {
    BrokenSteps(st, e);
    StepKeeps(st, e);
    hide *;
    FinishIsFinished(st, e.s);
    DoneAligned(Step(st, e), e.s);
  }

  lemma HeaderAligned(st: State, s: Sid, raw: Bytes)
    requires Inv(st) && Enabled(st, HeaderRead(s, Some(raw))) && s in st.sess
    requires st.sess[s].pc.ReadPdpHeader? && Aligned(st.sess[s])
    ensures var q := Step(st, HeaderRead(s, Some(raw))); s in q.sess && Aligned(q.sess[s])
  {
    HeaderSteps(st, s, raw);
    StepKeeps(st, HeaderRead(s, Some(raw)));
    hide *;
    PdpHeaderAligned(st, s, raw);
  }

  lemma WriterEventAligned(st: State, e: Event)
    requires Enabled(st, e) && (e.WriterRuns? || e.Written?) && e.s in st.sess && Aligned(st.sess[e.s])
    ensures e.s in Step(st, e).sess && Aligned(Step(st, e).sess[e.s])
  {
    WriterAligned(st.sess[e.s]);
    hide Aligned, WriterLoop, WriteDone;
  }

  lemma ActorAligned(st: State, e: Event)
    requires Inv(st) && Enabled(st, e) && e.s in st.sess && Aligned(st.sess[e.s])
    ensures e.s in Step(st, e).sess && Aligned(Step(st, e).sess[e.s])
  {
    EarlyPcs(st, e.s);
    StepActs(st, e);
    StepGrows(st, e);
    hide Inv, Step, Aligned, Grows, Acts;
    if e.HeaderRead? || e.BlockRead? {
      ReadAligned(st, e);
    } else if e.WriterRuns? || e.Written? {
      WriterEventAligned(st, e);
    } else if e.BondTimer? || e.BondResume? || e.SomeRead? {
      NamedOtherwise(st, Step(st, e), e.s);
    } else {
      NothingReadYet(st, Step(st, e), e.s);
    }
  }

  lemma HandedKeys(st: State, e: Event)
    requires Enabled(st, e)
    ensures Handed(st, e).sess.Keys == st.sess.Keys
  {
    hide SendTo, PdpSize, PdpTarget, GetU32;
    if e.HeaderRead? && e.raw.Some? && st.sess[e.s].pc.ReadPdpHeader? {
      SendToKeys(Consume(st, e.s, e.raw.value), PdpTarget(e.raw.value), Sent(e.s, PdpFrame(st.sess[e.s].name.src, [])));
    } else if e.BlockRead? && e.raw.Some? && st.sess[e.s].pc.ReadPdpBlock? {
      var x := st.sess[e.s];
      SendToKeys(Consume(st, e.s, e.raw.value), x.pc.target, Sent(e.s, PdpFrame(x.name.src, e.raw.value)));
    }
  }

  lemma SendToKeys(st: State, n: Name, p: Sent)
    ensures SendTo(st, n, p).sess.Keys == st.sess.Keys
  {
    hide Queued;
  }

  lemma ActsKeys(h: State, s: Sid, q: State)
    requires Acts(h, s, q)
    ensures forall t :: t in q.sess ==> t in h.sess || t == s
  {
    hide Echo;
  }

  lemma Admitted(st: State, e: Event)
    requires Enabled(st, e) && (e.s in st.sess ==> !e.Connected?)
    ensures e.s !in st.sess && e.s in Step(st, e).sess ==> Step(st, e).sess[e.s] == NEW_SESSION
  {
  }

  /** Only a connection that is let in adds a session, and that session starts with nothing. */
  lemma AddedIsNew(st: State, e: Event, t: Sid)
    requires Inv(st) && Enabled(st, e) && t in Step(st, e).sess && t !in st.sess
    ensures Step(st, e).sess[t] == NEW_SESSION
  {
    StepActs(st, e);
    hide *;
    HandedKeys(st, e);
    ActsKeys(Handed(st, e), e.s, Step(st, e));
    EnabledSession(st, e);
    Admitted(st, e);
  }

  lemma NewIsAligned()
    ensures Aligned(NEW_SESSION) && NEW_SESSION.log == [] && !NEW_SESSION.registered
  {
  }

  lemma StepAligned(st: State, e: Event, t: Sid)
    requires Inv(st) && Enabled(st, e) && AllAligned(st) && t in Step(st, e).sess
    ensures Aligned(Step(st, e).sess[t])
  {
    if t !in st.sess {
      hide *;
      AddedIsNew(st, e, t);
      NewIsAligned();
    } else if t == e.s {
      hide Inv, Step, Enabled, Aligned;
      ActorAligned(st, e);
    } else {
      hide Inv, Step, Enabled, Aligned, Apart, Echo, Handed;
      HandedApart(st, e, t);
      StepActs(st, e);
      BystanderAligned(st.sess[t], Handed(st, e).sess[t], Step(st, e).sess[t], e.s);
    }
  }

  /** A session that has yet to register is sent nothing. */
  lemma HandedUnregistered(st: State, e: Event, t: Sid)
    requires Inv(st) && Enabled(st, e) && t in st.sess && t in Handed(st, e).sess
    ensures !Handed(st, e).sess[t].registered ==> Handed(st, e).sess[t].log == []
  {
    HandedLogs(st, e, t);
    if st.sess[t].registered {
      HandedGrows(st, e);
      hide Inv, Enabled, Handed, Takes;
    } else {
      UnregisteredLog(st, t);
      NobodysName(st, t);
      hide Inv, Enabled, Handed, Takes;
    }
  }

  lemma NobodysName(st: State, t: Sid)
    requires Inv(st) && t in st.sess && !st.sess[t].registered
    ensures forall n :: !Takes(st, t, n)
  {
    assert Index(st);
    hide Inv;
  }

  lemma HandedLogs(st: State, e: Event, t: Sid)
    requires Enabled(st, e) && t in st.sess && t in Handed(st, e).sess
    ensures Handed(st, e).sess[t].log == st.sess[t].log || exists n :: Takes(st, t, n)
  {
    hide PdpSize, PdpTarget, GetU32, SendTo, Takes;
    if e.HeaderRead? && e.raw.Some? && st.sess[e.s].pc.ReadPdpHeader? {
      LogTakes(st, e.s, e.raw.value, PdpTarget(e.raw.value), Sent(e.s, PdpFrame(st.sess[e.s].name.src, [])), t);
    } else if e.BlockRead? && e.raw.Some? && st.sess[e.s].pc.ReadPdpBlock? {
      var x := st.sess[e.s];
      LogTakes(st, e.s, e.raw.value, x.pc.target, Sent(e.s, PdpFrame(x.name.src, e.raw.value)), t);
    }
  }

  lemma LogTakes(st: State, u: Sid, raw: Bytes, target: Name, p: Sent, t: Sid)
    requires u in st.sess && t in st.sess
    ensures var h := SendTo(Consume(st, u, raw), target, p);
            t in h.sess && (h.sess[t].log == st.sess[t].log || Takes(st, t, target))
  {
    HandedLooks(st, u, raw, target, p);
    hide SendTo, Consume;
  }

  lemma StepFlow(st: State, e: Event, s: Sid, t: Sid)
    requires Inv(st) && Enabled(st, e) && AllAligned(st) && Flows(st)
    requires s in Step(st, e).sess && t in Step(st, e).sess
    ensures Flow(Step(st, e).sess[s], s, Step(st, e).sess[t])
  {
    StepKeeps(st, e);
    StepActs(st, e);
    var q, h := Step(st, e), Handed(st, e);
    if s in st.sess && t in st.sess {
      hide Inv, Step, Enabled, Handed, AllAligned, Flow, Echo;
      HandedFlow(st, e, s, t);
      HandedUnregistered(st, e, t);
      EchoFlow(h.sess[s], q.sess[s], s, h.sess[t], q.sess[t], t, e.s);
    } else {
      hide *;
      NewIsAligned();
      if t in st.sess {
        AddedIsNew(st, e, s);
        OthersSendNone(q, s, t);
      } else {
        AddedIsNew(st, e, t);
        NothingFrom(s);
      }
      NothingArrived(To(Blocks(q.sess[s].input), q.sess[t].name), !q.sess[t].closed);
      FlowIs(q.sess[s], s, q.sess[t]);
    }
  }

  lemma StepFlows(st: State, e: Event)
    requires Inv(st) && Enabled(st, e) && AllAligned(st) && Flows(st)
    ensures AllAligned(Step(st, e)) && Flows(Step(st, e))
  {
    hide Inv, Step, Enabled, Aligned, Flow;
    forall s, t | s in Step(st, e).sess && t in Step(st, e).sess ensures Flow(Step(st, e).sess[s], s, Step(st, e).sess[t]) {
      StepFlow(st, e, s, t);
    }
    forall t | t in Step(st, e).sess ensures Aligned(Step(st, e).sess[t]) {
      StepAligned(st, e, t);
    }
  }

  // ---- every run --------------------------------------------------------------------------------

  lemma {:induction false} RunFlows(st: State, es: seq<Event>)
    requires Inv(st) && AllAligned(st) && Flows(st) && Schedulable(st, es)
    ensures AllAligned(Run(st, es)) && Flows(Run(st, es))
    decreases |es|
  {
    hide Inv, Step, Enabled, AllAligned, Flows;
    if es != [] {
      StepKeeps(st, es[0]);
      StepFlows(st, es[0]);
      RunFlows(Step(st, es[0]), es[1..]);
    }
  }

  /** PDP is a datagram service that neither invents, nor alters, nor reorders, nor skips: of the blocks
      that `s` sent to the name of `t`, those that `t` accepted are one uninterrupted piece, and as long as
      `t` is open it reaches to the last of them. */
  lemma DatagramsArriveInOrder(es: seq<Event>, s: Sid, t: Sid)
    requires Schedulable(INITIAL, es) && s in Run(INITIAL, es).sess && t in Run(INITIAL, es).sess
    ensures var st := Run(INITIAL, es);
            var sent, got := To(Blocks(st.sess[s].input), st.sess[t].name), From(st.sess[t].log, s);
            Arrived(sent, got, !st.sess[t].closed)
  {
    InitialInv();
    assert AllAligned(INITIAL) && Flows(INITIAL);
    RunFlows(INITIAL, es);
    FlowIs(Run(INITIAL, es).sess[s], s, Run(INITIAL, es).sess[t]);
    hide Run, Inv, Blocks, To, From, Flow;
  }

  // ---- one datagram -----------------------------------------------------------------------------

  /** The datagram whose last byte `e` reads, if any. */
  function Completed(st: State, e: Event): Option<Datagram>
    requires Enabled(st, e)
  {
    match e
    case HeaderRead(s, raw) =>
      if raw.Some? && st.sess[s].pc.ReadPdpHeader? && PdpSize(raw.value) == 0
      then Some(Datagram(PdpTarget(raw.value), [])) else None
    case BlockRead(s, raw) =>
      if raw.Some? && st.sess[s].pc.ReadPdpBlock? then Some(Datagram(st.sess[s].pc.target, raw.value)) else None
    case _ => None
  }

  lemma LoopTopLogs(h: State, s: Sid, next: Pc, t: Sid)
    requires Live(h, s) && t in h.sess
    ensures var q := LoopTop(h, s, next); t in q.sess && q.sess[t].log == h.sess[t].log
  {
    LiveIn(h, s);
    LoopTopIs(h, s, next);
    hide Live, LoopTop, Finish;
    FinishLogs(h, s, t);
  }

  lemma FinishLogs(h: State, s: Sid, t: Sid)
    requires Live(h, s) && t in h.sess
    ensures var q := Finish(h, s); t in q.sess && q.sess[t].log == h.sess[t].log
  {
    FinishHasEffect(h, s);
    hide Finish, Index, Counted, Holder, KeyOf;
    assert t != s ==> Calmed(h.sess[t], Finish(h, s).sess[t]);
  }

  lemma CompletedLoops(st: State, e: Event, d: Datagram)
    requires Enabled(st, e) && Completed(st, e) == Some(d)
    ensures |d.payload| <= PTP_BLOCK_LIMIT && e.s in st.sess && e.raw.Some?
    ensures st.sess[e.s].pc.ReadPdpHeader? || st.sess[e.s].pc.ReadPdpBlock?
    ensures var h := SendTo(Consume(st, e.s, e.raw.value), d.target, Sent(e.s, PdpFrame(st.sess[e.s].name.src, d.payload)));
            e.s in h.sess && Step(st, e) == LoopTop(h, e.s, ReadPdpHeader)
  {
    var raw := e.raw.value;
    hide SendTo, LoopTop, PdpTarget, PdpSize;
    HandedInput(st, e.s, raw, d.target, Sent(e.s, PdpFrame(st.sess[e.s].name.src, d.payload)));
  }

  /** The step that completes a datagram adds it, under the sender's own address, to the log of the open
      session that has the target's name, if there is one, and nothing to any other log. */
  lemma DatagramIsDelivered(st: State, e: Event, d: Datagram, t: Sid)
    requires Inv(st) && Enabled(st, e) && Completed(st, e) == Some(d) && t in st.sess
    ensures |d.payload| <= PTP_BLOCK_LIMIT && e.s in st.sess && t in Step(st, e).sess
    ensures Step(st, e).sess[t].log ==
            if d.target in st.reg && st.reg[d.target] == t && !st.sess[t].closed
            then st.sess[t].log + [Sent(e.s, PdpFrame(st.sess[e.s].name.src, d.payload))]
            else st.sess[t].log
  {
    CompletedLoops(st, e, d);
    var f := PdpFrame(st.sess[e.s].name.src, d.payload);
    var h := SendTo(Consume(st, e.s, e.raw.value), d.target, Sent(e.s, f));
    LiveAt(st, e.s);
    hide Inv, Step, Enabled, Completed, Live, SendTo, Consume, LoopTop, Shuts;
    SendToShuts(st, e.s, e.raw.value, d.target, f);
    HandedLooks(st, e.s, e.raw.value, d.target, Sent(e.s, f));
    LoopTopLogs(h, e.s, ReadPdpHeader, t);
  }
}
