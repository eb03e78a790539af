/** The relay as the program writes it: session objects that change in place, and string-keyed tables.

`RelayServer.Handle` runs one event and is proved to do exactly one `RelayModel.Step`.
*/
module RelayServers {
  import opened Bytes
  import opened SessionNames
  import opened RelayDirectories
  import opened RelayModel
  import opened RelayInvariant
  import opened RelayRuns
  import opened RelayWire

  lemma SizeIsWireLength(f: Frame)
    ensures Size(f) == |Wire(f)|
  {
  }

  lemma ClosedKeepsFlags(x: Session)
    ensures var y := Closed(x);
            y.registered == x.registered && y.superseded == x.superseded && y.name == x.name
  {
  }

  /** The bytes that stand for the packets, one by one. */
  ghost predicate WireOf(packets: seq<Sent>, bytes: seq<Bytes>) {
    |bytes| == |packets| && forall i :: 0 <= i < |packets| ==> bytes[i] == Wire(packets[i].frame)
  }

  lemma WirePush(packets: seq<Sent>, bytes: seq<Bytes>, p: Sent)
    requires WireOf(packets, bytes)
    ensures WireOf(packets + [p], bytes + [Wire(p.frame)])
  {
    hide Wire;
  }

  lemma WirePop(packets: seq<Sent>, bytes: seq<Bytes>)
    requires WireOf(packets, bytes)
    ensures packets == [] <==> bytes == []
    ensures packets != [] ==> bytes[0] == Wire(packets[0].frame) && WireOf(packets[1..], bytes[1..])
  {
    hide Wire;
  }

  /** `relay_session`. The two suspended coroutines are the fields `pc` and `writer`. */
  class RelaySession {
    const id: Sid
    var pc: Pc
    var name: Name
    var identifier_: Bytes
    var write_queue_: seq<Bytes>
    var in_flight_: Bytes
    var queued_bytes_: int
    var established_: bool
    var closed_: bool
    var registered_: bool
    var superseded_: bool
    var finished_: bool
    ghost var writer: Writer
    ghost var queue: seq<Sent>
    ghost var log: seq<Sent>
    ghost var delivered: seq<Sent>
    ghost var sent: Bytes
    ghost var input: Bytes

    /** The queue holds the wire bytes of the packets that the model queues, and what went over the wire are
        the bytes of the packets that it delivered. */
    ghost predicate Valid()
      reads this`queue, this`write_queue_, this`writer, this`in_flight_, this`registered_, this`identifier_, this`name
      reads this`sent, this`delivered
    {
      && WireOf(queue, write_queue_)
      && sent == WireAll(delivered)
      && (writer.Writing? ==> in_flight_ == Wire(writer.packet.frame))
      && (registered_ ==> identifier_ == Format(name))
    }

    ghost function View(): Session
      reads this
    {
      Session(pc, writer, name, queue, queued_bytes_, established_, closed_, registered_, superseded_,
              finished_, log, delivered, input)
    }

    constructor (id: Sid)
      ensures Valid() && View() == NEW_SESSION && this.id == id
    {
      this.id := id;
      pc, writer := ReadInit, Runnable;
      name, identifier_ := NEW_SESSION.name, [];
      write_queue_, in_flight_, queued_bytes_, queue := [], [], 0, [];
      established_, closed_, registered_, superseded_, finished_ := false, false, false, false, false;
      log, delivered, sent, input := [], [], [], [];
    }

    method Close()
      requires Valid()
      modifies this
      ensures Valid() && View() == Closed(old(View())) && identifier_ == old(identifier_) && sent == old(sent)
    {
      if closed_ {
        return;
      }
      closed_ := true;
      writer := Wake(writer);
      pc := SignalBond(pc);
    }

    /** The part of `queue_send` before the limit is checked. */
    method Push(data: Bytes, ghost p: Sent)
      requires Valid() && data == Wire(p.frame)
      modifies this`queued_bytes_, this`write_queue_, this`queue, this`log, this`writer
      ensures Valid()
      ensures var x := old(View());
              View() == x.(queuedBytes := x.queuedBytes + Size(p.frame), queue := x.queue + [p],
                           log := x.log + [p], writer := Wake(x.writer))
    {
      hide Wire, Size, WireOf, Format;
      SizeIsWireLength(p.frame);
      WirePush(queue, write_queue_, p);
      queued_bytes_ := queued_bytes_ + |data|;
      write_queue_ := write_queue_ + [data];
      queue, log := queue + [p], log + [p];
      writer := Wake(writer);
    }

    method QueueSend(data: Bytes, ghost p: Sent)
      requires Valid() && data == Wire(p.frame)
      modifies this
      ensures Valid() && View() == Queued(old(View()), p) && identifier_ == old(identifier_)
    {
      hide Valid, Wire, Size, Closed;
      if closed_ || data == [] {
        return;
      }
      Push(data, p);
      if queued_bytes_ >= QUEUE_LIMIT {
        Close();
      }
    }

    method Bond()
      requires Valid()
      modifies this
      ensures Valid() && View() == Bonded(old(View())) && identifier_ == old(identifier_)
    {
      established_ := true;
      pc := SignalBond(pc);
    }

    method Supersede()
      requires Valid()
      modifies this
      ensures Valid() && View() == Superseded(old(View())) && identifier_ == old(identifier_)
    {
      superseded_ := true;
      Close();
    }

    /** The part of `register_self` and its callers that is about this session alone. */
    method Rename(n: Name, est: bool, next: Pc)
      requires Valid()
      modifies this`name, this`established_, this`pc, this`identifier_, this`registered_
      ensures Valid() && identifier_ == Format(n)
      ensures View() == old(View()).(name := n, established := est, registered := true, pc := next)
    {
      hide Wire, WireOf, Format;
      name, established_, pc := n, est, next;
      identifier_ := Format(n);
      registered_ := true;
    }

    /** The part of `finish` that is about this session alone; its coroutine ends with it. */
    method MarkFinished()
      requires Valid()
      modifies this
      ensures Valid() && View() == Closed(old(View())).(finished := true, pc := Done)
      ensures identifier_ == old(identifier_)
    {
      finished_ := true;
      Close();
      pc := Done;
    }

    /** `writer`, from the top of its loop to its next suspension. */
    method RunWriter()
      requires Valid()
      modifies this
      ensures Valid() && View() == WriterLoop(old(View())) && identifier_ == old(identifier_) && sent == old(sent)
    {
      hide Wire, Size, WireOf, Format, WireAll;
      WirePop(queue, write_queue_);
      if closed_ {
        writer := Stopped;
      } else if write_queue_ == [] {
        writer := Idle;
      } else {
        SizeIsWireLength(queue[0].frame);
        in_flight_ := write_queue_[0];
        write_queue_ := write_queue_[1..];
        queued_bytes_ := queued_bytes_ - |in_flight_|;
        writer, queue := Writing(queue[0]), queue[1..];
      }
    }

    /** The packet in flight has gone over the wire. */
    method Record()
      requires Valid() && writer.Writing?
      modifies this`sent, this`delivered
      ensures Valid() && sent == old(sent) + in_flight_
      ensures View() == old(View()).(delivered := old(delivered) + [writer.packet])
    {
      hide Wire, WireOf, Format, WireAll;
      WireAllAppend(delivered, writer.packet);
      sent := sent + in_flight_;
      delivered := delivered + [writer.packet];
    }

    method FinishWrite(ok: bool)
      requires Valid() && writer.Writing?
      modifies this
      ensures Valid() && View() == WriteDone(old(View()), ok) && identifier_ == old(identifier_)
      ensures sent == if ok then old(sent) + old(in_flight_) else old(sent)
    {
      hide Wire, WireAll, WireOf, Format, Size;
      if ok {
        Record();
        RunWriter();
      } else {
        ghost var p := writer.packet;
        Close();
        writer := Failed(p);
      }
    }
  }

  type Handles = map<Sid, RelaySession>

  /** Every session object shows what the model's state says about it. */
  ghost predicate Objects(handles: Handles, sess: map<Sid, Session>)
    reads handles.Values
  {
    && handles.Keys == sess.Keys
    && forall s :: s in handles ==> handles[s].id == s && handles[s].Valid() && handles[s].View() == sess[s]
  }

  /** All but `x` show what the model says, so nothing here changes with `x`. */
  ghost predicate Others(handles: Handles, sess: map<Sid, Session>, x: RelaySession)
    reads handles.Values - {x}
  {
    && handles.Keys == sess.Keys
    && (forall s :: s in handles ==> handles[s].id == s)
    && forall s :: s in handles && handles[s] != x ==> handles[s].Valid() && handles[s].View() == sess[s]
  }

  lemma ObjectsPut(handles: Handles, sess: map<Sid, Session>, x: RelaySession)
    requires x.id in handles && handles[x.id] == x && x.Valid() && Others(handles, sess, x)
    ensures Objects(handles, sess[x.id := x.View()])
  {
    hide RelaySession.Valid, RelaySession.View;
  }

  ghost predicate NameOfSome<V>(k: Bytes, typed: map<Name, V>) {
    exists n :: n in typed && Format(n) == k
  }

  /** A string-keyed table is the typed table under formatted names. */
  ghost predicate Keyed<V>(typed: map<Name, V>, strings: map<Bytes, V>) {
    && (forall n :: n in typed ==> Format(n) in strings && strings[Format(n)] == typed[n])
    && (forall k :: k in strings ==> NameOfSome(k, typed))
  }

  lemma FormatApart(n: Name)
    ensures forall m :: Format(m) == Format(n) ==> m == n
  {
    forall m | Format(m) == Format(n) ensures m == n {
      FormatInjective(m, n);
    }
  }

  /** Looking a formatted name up finds exactly what the typed table holds. */
  lemma KeyedAt<V>(typed: map<Name, V>, strings: map<Bytes, V>, n: Name)
    requires Keyed(typed, strings)
    ensures n in typed <==> Format(n) in strings
    ensures n in typed ==> strings[Format(n)] == typed[n]
  {
    FormatApart(n);
    hide Format;
  }

  lemma KeyedRemoved<V>(typed: map<Name, V>, strings: map<Bytes, V>, n: Name)
    requires Keyed(typed, strings)
    ensures Keyed(typed - {n}, strings - {Format(n)})
  {
    FormatApart(n);
    hide Format;
    var t, s := typed - {n}, strings - {Format(n)};
    forall k | k in s ensures NameOfSome(k, t) {
      assert NameOfSome(k, typed);
      var m :| m in typed && Format(m) == k;
      assert m in t;
    }
  }

  lemma KeyedAdded<V>(typed: map<Name, V>, strings: map<Bytes, V>, n: Name, v: V)
    requires Keyed(typed, strings)
    ensures Keyed(typed[n := v], strings[Format(n) := v])
  {
    FormatApart(n);
    hide Format;
    var t, s := typed[n := v], strings[Format(n) := v];
    forall k | k in s ensures NameOfSome(k, t) {
      if k == Format(n) {
        assert n in t;
      } else {
        assert NameOfSome(k, typed);
        var m :| m in typed && Format(m) == k;
        assert m in t;
      }
    }
  }

  /** The objects behind a table of handles. */
  ghost function Registered(handles: Handles, reg: map<Name, Sid>): map<Name, RelaySession>
    requires forall n :: n in reg ==> reg[n] in handles
  {
    map n | n in reg :: handles[reg[n]]
  }

  ghost predicate NamesMatch(handles: Handles, reg: map<Name, Sid>, sessions: map<Bytes, RelaySession>) {
    (forall n :: n in reg ==> reg[n] in handles) && Keyed(Registered(handles, reg), sessions)
  }

  ghost function Resolved(handles: Handles, ws: seq<Sid>): seq<RelaySession>
    requires forall i :: 0 <= i < |ws| ==> ws[i] in handles
  {
    seq(|ws|, i requires 0 <= i < |ws| => handles[ws[i]])
  }

  ghost function AllResolved(handles: Handles, waiting: map<Name, seq<Sid>>): map<Name, seq<RelaySession>>
    requires forall n :: n in waiting ==> forall i :: 0 <= i < |waiting[n]| ==> waiting[n][i] in handles
  {
    map n | n in waiting :: Resolved(handles, waiting[n])
  }

  ghost predicate WaitsMatch(handles: Handles, waiting: map<Name, seq<Sid>>, waiters: map<Bytes, seq<RelaySession>>) {
    && (forall n :: n in waiting ==> forall i :: 0 <= i < |waiting[n]| ==> waiting[n][i] in handles)
    && Keyed(AllResolved(handles, waiting), waiters)
  }

  lemma NameAt(handles: Handles, reg: map<Name, Sid>, sessions: map<Bytes, RelaySession>, n: Name)
    requires NamesMatch(handles, reg, sessions)
    ensures n in reg <==> Format(n) in sessions
    ensures n in reg ==> reg[n] in handles && sessions[Format(n)] == handles[reg[n]]
  {
    hide Format;
    KeyedAt(Registered(handles, reg), sessions, n);
  }

  lemma NameRemoved(handles: Handles, reg: map<Name, Sid>, sessions: map<Bytes, RelaySession>, n: Name)
    requires NamesMatch(handles, reg, sessions)
    ensures NamesMatch(handles, reg - {n}, sessions - {Format(n)})
  {
    hide Format, Keyed;
    KeyedRemoved(Registered(handles, reg), sessions, n);
    assert Registered(handles, reg - {n}) == Registered(handles, reg) - {n};
  }

  lemma NameAdded(handles: Handles, reg: map<Name, Sid>, sessions: map<Bytes, RelaySession>, n: Name, s: Sid)
    requires NamesMatch(handles, reg, sessions) && s in handles
    ensures NamesMatch(handles, reg[n := s], sessions[Format(n) := handles[s]])
  {
    hide Format, Keyed;
    KeyedAdded(Registered(handles, reg), sessions, n, handles[s]);
    assert Registered(handles, reg[n := s]) == Registered(handles, reg)[n := handles[s]];
  }

  lemma WaitAt(handles: Handles, waiting: map<Name, seq<Sid>>, waiters: map<Bytes, seq<RelaySession>>, n: Name)
    requires WaitsMatch(handles, waiting, waiters)
    ensures n in waiting <==> Format(n) in waiters
    ensures n in waiting ==>
      && (forall i :: 0 <= i < |waiting[n]| ==> waiting[n][i] in handles)
      && waiters[Format(n)] == Resolved(handles, waiting[n])
  {
    hide Format;
    KeyedAt(AllResolved(handles, waiting), waiters, n);
  }

  lemma WaitRemoved(handles: Handles, waiting: map<Name, seq<Sid>>, waiters: map<Bytes, seq<RelaySession>>, n: Name)
    requires WaitsMatch(handles, waiting, waiters)
    ensures WaitsMatch(handles, waiting - {n}, waiters - {Format(n)})
  {
    hide Format, Keyed, Resolved;
    KeyedRemoved(AllResolved(handles, waiting), waiters, n);
    assert AllResolved(handles, waiting - {n}) == AllResolved(handles, waiting) - {n};
  }

  lemma WaitSet(handles: Handles, waiting: map<Name, seq<Sid>>, waiters: map<Bytes, seq<RelaySession>>, n: Name,
                ws: seq<Sid>)
    requires WaitsMatch(handles, waiting, waiters)
    requires forall i :: 0 <= i < |ws| ==> ws[i] in handles
    ensures WaitsMatch(handles, waiting[n := ws], waiters[Format(n) := Resolved(handles, ws)])
  {
    hide Format, Keyed, Resolved;
    KeyedAdded(AllResolved(handles, waiting), waiters, n, Resolved(handles, ws));
    assert AllResolved(handles, waiting[n := ws]) == AllResolved(handles, waiting)[n := Resolved(handles, ws)];
  }

  class RelayServer {
    var handles: Handles
    var sessions_: map<Bytes, RelaySession>
    var waiters_: map<Bytes, seq<RelaySession>>
    var active_count_: nat
    const directory: RelayDirectory
    ghost var st: State

    ghost predicate Valid()
      reads this, handles.Values, directory
    {
      && Objects(handles, st.sess)
      && NamesMatch(handles, st.reg, sessions_)
      && WaitsMatch(handles, st.waiters, waiters_)
      && directory.Valid() && directory.Ports() == st.dir.Keys
      && active_count_ == st.active
    }

    ghost predicate Known(x: RelaySession)
      reads this
    {
      x.id in handles && handles[x.id] == x
    }

    constructor (directory: RelayDirectory)
      requires directory.Valid() && directory.Ports() == {}
      ensures Valid() && st == INITIAL && this.directory == directory
    {
      this.directory := directory;
      handles, sessions_, waiters_, active_count_, st := map[], map[], map[], 0, INITIAL;
    }

    // ---- one session changes ------------------------------------------------------------------

    /** `x` alone changed: bring the model's record of it up to date. */
    ghost method Record(x: RelaySession)
      requires Known(x) && x.Valid()
      requires NamesMatch(handles, st.reg, sessions_) && WaitsMatch(handles, st.waiters, waiters_)
      requires directory.Valid() && directory.Ports() == st.dir.Keys && active_count_ == st.active
      requires Others(handles, st.sess, x)
      modifies this`st
      ensures Valid() && st == Put(old(st), x.id, x.View())
    {
      hide NamesMatch, WaitsMatch, Others, RelaySession.Valid, RelaySession.View;
      ObjectsPut(handles, st.sess, x);
      st := Put(st, x.id, x.View());
    }

    method CloseSession(x: RelaySession)
      requires Valid() && Known(x)
      modifies this`st, x
      ensures Valid() && st == Close(old(st), x.id)
    {
      hide NamesMatch, WaitsMatch, Objects, Others, RelaySession.Valid, Closed;
      Shown(x);
      x.Close();
      Record(x);
    }

    method Send(x: RelaySession, data: Bytes, ghost p: Sent)
      requires Valid() && Known(x) && data == Wire(p.frame)
      modifies this`st, x
      ensures Valid() && st == RelayModel.Send(old(st), x.id, p)
    {
      hide NamesMatch, WaitsMatch, Objects, Others, RelaySession.Valid, Queued, Wire;
      Shown(x);
      x.QueueSend(data, p);
      Record(x);
    }

    /** A session object and the model's record of it. */
    lemma Shown(x: RelaySession)
      requires Valid() && Known(x)
      ensures x.id in st.sess && x.Valid() && x.View() == st.sess[x.id] && Others(handles, st.sess, x)
    {
      hide NamesMatch, WaitsMatch, RelaySession.Valid, RelaySession.View;
    }

    // ---- the registry ---------------------------------------------------------------------------

    /** What a lookup of the formatted name meets. */
    lemma Looked(n: Name)
      requires Valid()
      ensures n in st.reg <==> Format(n) in sessions_
      ensures n in st.reg ==> Known(sessions_[Format(n)]) && sessions_[Format(n)].id == st.reg[n]
    {
      NameAt(handles, st.reg, sessions_, n);
      hide NamesMatch, WaitsMatch, Format;
    }

    /** `relay_registry::find`: the string lookup finds what the typed index holds. */
    method Find(key: Bytes, ghost n: Name) returns (r: RelaySession?)
      requires Valid() && key == Format(n)
      ensures r != null <==> n in st.reg
      ensures r != null ==> Known(r) && st.reg[n] == r.id
    {
      Looked(n);
      hide Format, NamesMatch, WaitsMatch, Objects, Others, RelaySession.Valid;
      r := if key in sessions_ then sessions_[key] else null;
    }

    /** `relay_registry::remove` */
    method Remove(key: Bytes, ghost n: Name, x: RelaySession)
      requires Valid() && Known(x) && key == Format(n)
      modifies this`sessions_, this`st
      ensures Valid() && st == Unregister(old(st), n, x.id)
    {
      hide Format, NamesMatch, WaitsMatch, Objects, Others, RelaySession.Valid;
      Looked(n);
      if key in sessions_ && sessions_[key] == x {
        assert st.reg[n] == x.id;
        NameRemoved(handles, st.reg, sessions_, n);
        sessions_ := sessions_ - {key};
        st := st.(reg := st.reg - {n});
      }
    }

    method SignalListener(t: RelaySession)
      requires Valid() && Known(t)
      modifies this`st, t
      ensures Valid() && st == Put(old(st), t.id, old(st).sess[t.id].(pc := SignalListen(old(st).sess[t.id].pc)))
    {
      hide NamesMatch, WaitsMatch, Objects, Others, RelaySession.Valid;
      Shown(t);
      t.pc := SignalListen(t.pc);
      Record(t);
    }

    // ---- finish --------------------------------------------------------------------------------

    method MarkFinished(x: RelaySession)
      requires Valid() && Known(x)
      modifies this`st, x
      ensures Valid() && st == Put(old(st), x.id, Closed(old(st).sess[x.id]).(finished := true, pc := Done))
      ensures x.identifier_ == old(x.identifier_)
    {
      hide NamesMatch, WaitsMatch, Objects, Others, RelaySession.Valid, Closed;
      Shown(x);
      x.MarkFinished();
      Record(x);
    }

    method Withdraw(x: RelaySession)
      requires Valid() && Known(x)
      modifies this`st, directory
      ensures Valid() && st == old(st).(dir := old(st).dir - {KeyOf(x.name)})
    {
      hide NamesMatch, WaitsMatch, Objects, RelayDirectory.Valid, RelayDirectory.Ports;
      var k := KeyOf(x.name);
      directory.Remove(k.mac, k.kind, k.port);
      st := st.(dir := st.dir - {k});
    }

    method Leave(x: RelaySession)
      requires Valid() && Known(x) && x.registered_
      modifies this`sessions_, this`st, handles.Values
      ensures Valid() && st == ClosePeer(Unregister(old(st), old(x.name), x.id), old(x.name))
    {
      hide Format, Closed, NamesMatch, WaitsMatch, Objects, Others, WireOf;
      Shown(x);
      ghost var n := x.name;
      Remove(x.identifier_, x.name, x);
      var peer := Peer(x.name);
      assert st == Unregister(old(st), n, x.id) && peer == Peer(n);
      if peer.Some? {
        ghost var u := st;
        var p := Find(Format(peer.value), peer.value);
        if p != null {
          CloseSession(p);
          assert st == Close(u, u.reg[peer.value]);
        }
        assert st == ClosePeer(u, n);
      }
    }

    /** `finish` */
    method Finish(x: RelaySession)
      requires Valid() && Known(x)
      modifies this`sessions_, this`active_count_, this`st, handles.Values, directory
      ensures Valid() && st == RelayModel.Finish(old(st), x.id)
    {
      hide Closed, ClosePeer, Unregister, NamesMatch, WaitsMatch, Format, Objects, Others, RelaySession.Valid;
      Shown(x);
      if x.finished_ {
        return;
      }
      ghost var was := st;
      MarkFinished(x);
      Shown(x);
      assert x.registered_ == was.sess[x.id].registered && x.superseded_ == was.sess[x.id].superseded
        && x.name == was.sess[x.id].name by { ClosedKeepsFlags(was.sess[x.id]); }
      if x.registered_ {
        Withdraw(x);
      }
      if x.registered_ && !x.superseded_ {
        Leave(x);
      }
      if active_count_ > 0 {
        active_count_ := active_count_ - 1;
      }
      st := st.(active := active_count_);
    }

    // ---- registration ----------------------------------------------------------------------------

    method SupersedeSession(x: RelaySession)
      requires Valid() && Known(x)
      modifies this`st, x
      ensures Valid() && st == Put(old(st), x.id, Superseded(old(st).sess[x.id]))
    {
      hide NamesMatch, WaitsMatch, Objects, Others, RelaySession.Valid, Superseded;
      Shown(x);
      x.Supersede();
      Record(x);
    }

    lemma Timer(n: Name, i: nat)
      requires Valid() && n in st.waiters && i < |st.waiters[n]|
      ensures Format(n) in waiters_ && |waiters_[Format(n)]| == |st.waiters[n]|
      ensures Known(waiters_[Format(n)][i]) && waiters_[Format(n)][i].id == st.waiters[n][i]
    {
      WaitAt(handles, st.waiters, waiters_, n);
      hide NamesMatch, WaitsMatch, Format;
    }

    lemma Waited(n: Name)
      requires Valid()
      ensures n in st.waiters <==> Format(n) in waiters_
      ensures n in st.waiters ==> |waiters_[Format(n)]| == |st.waiters[n]|
    {
      WaitAt(handles, st.waiters, waiters_, n);
      hide NamesMatch, WaitsMatch, Format;
    }

    /** Cancel every timer that waits for the name, and forget the list. */
    method WakeWaiters(key: Bytes, ghost n: Name)
      requires Valid() && key == Format(n)
      modifies this`waiters_, this`st, handles.Values
      ensures Valid()
      ensures st == if n in old(st).waiters
                    then old(st).(sess := FireListeners(old(st).sess, old(st).waiters[n]),
                                  waiters := old(st).waiters - {n})
                    else old(st)
    {
      hide NamesMatch, WaitsMatch, Objects, Others, RelaySession.Valid, Format;
      ghost var was := st;
      Waited(n);
      if key in waiters_ {
        var timers := waiters_[key];
        ghost var ws := st.waiters[n];
        var i := 0;
        FireNone(was.sess);
        assert ws[..0] == [];
        while i < |timers|
          invariant i <= |timers| == |ws| && Valid() && key in waiters_ && timers == waiters_[key]
          invariant st == was.(sess := FireListeners(was.sess, ws[..i]))
        {
          Timer(n, i);
          Shown(timers[i]);
          FireNext(was.sess, ws, i);
          SignalListener(timers[i]);
          i := i + 1;
        }
        assert ws[..i] == ws;
        WaitRemoved(handles, st.waiters, waiters_, n);
        waiters_ := waiters_ - {key};
        st := st.(waiters := st.waiters - {n});
      }
    }

    /** `relay_registry::add` */
    method Add(key: Bytes, ghost n: Name, x: RelaySession)
      requires Valid() && Known(x) && key == Format(n)
      modifies this`sessions_, this`waiters_, this`st, handles.Values
      ensures Valid() && st == RegAdd(old(st), n, x.id)
    {
      hide NamesMatch, WaitsMatch, Objects, Others, RelaySession.Valid, Format, Superseded, FireListeners;
      Looked(n);
      if key in sessions_ {
        Shown(sessions_[key]);
        SupersedeSession(sessions_[key]);
      }
      NameAdded(handles, st.reg, sessions_, n, x.id);
      sessions_ := sessions_[key := x];
      st := st.(reg := st.reg[n := x.id]);
      WakeWaiters(key, n);
    }

    method RenameSession(x: RelaySession, n: Name, est: bool, next: Pc)
      requires Valid() && Known(x)
      modifies this`st, x
      ensures Valid() && x.identifier_ == Format(n)
      ensures st == Put(old(st), x.id,
        old(st).sess[x.id].(name := n, established := est, registered := true, pc := next))
    {
      hide NamesMatch, WaitsMatch, Objects, Others, RelaySession.Valid, Format;
      Shown(x);
      x.Rename(n, est, next);
      Record(x);
    }

    /** `register_self`. One step takes it whole, so the fields may change together before the tables. */
    method RegisterSelf(x: RelaySession, n: Name, est: bool, next: Pc) returns (added: bool)
      requires Valid() && Known(x)
      modifies this`sessions_, this`waiters_, this`st, handles.Values, directory
      ensures Valid() && (added <==> KeyOf(n) !in old(st).dir) && x.id in old(st).sess
      ensures var r := Register(old(st), x.id, n, est, next); st == if added then Advertise(r, x.id, n) else r
    {
      hide NamesMatch, WaitsMatch, Objects, Others, RelaySession.Valid, Format, RegAdd, RelayDirectory.Valid,
        RelayDirectory.Ports;
      Shown(x);
      RenameSession(x, n, est, next);
      Add(x.identifier_, n, x);
      var k := KeyOf(n);
      added := directory.Add(k.mac, k.kind, k.port);
      if added {
        st := Advertise(st, x.id, n);
      }
    }

    /** `while (!closed_)`: suspend on the next read, or finish. */
    method GoOn(x: RelaySession, next: Pc)
      requires Valid() && Known(x)
      modifies this`sessions_, this`active_count_, this`st, handles.Values, directory
      ensures Valid() && x.id in old(st).sess && st == LoopTop(old(st), x.id, next)
    {
      hide NamesMatch, WaitsMatch, Objects, Others, RelaySession.Valid, RelayModel.Finish;
      Shown(x);
      if x.closed_ {
        Finish(x);
      } else {
        Suspend(x, next);
      }
    }

    method Suspend(x: RelaySession, next: Pc)
      requires Valid() && Known(x)
      modifies this`st, x
      ensures Valid() && x.id in old(st).sess && st == Put(old(st), x.id, old(st).sess[x.id].(pc := next))
    {
      hide NamesMatch, WaitsMatch, Objects, Others, RelaySession.Valid;
      Shown(x);
      x.pc := next;
      Record(x);
    }

    method Consume(x: RelaySession, raw: Bytes)
      requires Valid() && Known(x)
      modifies this`st, x
      ensures Valid() && x.id in old(st).sess && st == RelayModel.Consume(old(st), x.id, raw)
    {
      hide NamesMatch, WaitsMatch, Objects, Others, RelaySession.Valid;
      Shown(x);
      x.input := x.input + raw;
      Record(x);
    }

    /** The PDP and LISTEN branches of `run`. */
    method Enter(x: RelaySession, n: Name, next: Pc)
      requires Valid() && Known(x)
      modifies this`sessions_, this`waiters_, this`active_count_, this`st, handles.Values, directory
      ensures Valid() && x.id in old(st).sess && st == RelayModel.Enter(old(st), x.id, n, next)
    {
      hide NamesMatch, WaitsMatch, Objects, Others, RelaySession.Valid, RelayModel.Finish, Register, LoopTop;
      var added := RegisterSelf(x, n, false, next);
      if added { GoOn(x, next); } else { Finish(x); }
    }

    /** `establish_connect` once `await_session` has returned. */
    method EstablishConnect(x: RelaySession, n: Name)
      requires Valid() && Known(x) && n.ConnectName?
      modifies this`sessions_, this`waiters_, this`active_count_, this`st, handles.Values, directory
      ensures Valid() && x.id in old(st).sess && st == RelayModel.EstablishConnect(old(st), x.id, n)
    {
      hide NamesMatch, WaitsMatch, Objects, Others, RelaySession.Valid, RelayModel.Finish, Register, RelayModel.Send,
        Wire, Format;
      Shown(x);
      var listen := Find(Format(ListenerOf(n)), ListenerOf(n));
      if listen == null {
        Finish(x);
        return;
      }
      var added := RegisterSelf(x, n, false, AwaitBond(false));
      if added {
        Send(listen, Wire(Notice(n.src)), Sent(x.id, Notice(n.src)));
      } else {
        Finish(x);
      }
    }

    method BondSession(c: RelaySession)
      requires Valid() && Known(c)
      modifies this`st, c
      ensures Valid() && c.id in old(st).sess && st == Put(old(st), c.id, Bonded(old(st).sess[c.id]))
    {
      hide NamesMatch, WaitsMatch, Objects, Others, RelaySession.Valid, Bonded;
      Shown(c);
      c.Bond();
      Record(c);
    }

    method BondWith(c: RelaySession, a: RelaySession)
      requires Valid() && Known(c) && Known(a)
      modifies this`st, c
      ensures Valid() && st == AddBond(old(st), a.id, c.id)
    {
      hide NamesMatch, WaitsMatch, Bonded, Objects;
      BondSession(c);
      st := st.(bonds := st.bonds + {RelayModel.Bond(a.id, c.id)});
    }

    method NameOnly(x: RelaySession, n: Name)
      requires Valid() && Known(x) && !x.registered_
      modifies this`st, x
      ensures Valid() && x.id in old(st).sess && st == Put(old(st), x.id, old(st).sess[x.id].(name := n))
    {
      hide NamesMatch, WaitsMatch, Objects, Others, Wire, WireOf, Format;
      Shown(x);
      x.name := n;
      Record(x);
    }

    /** `establish_accept` */
    method EstablishAccept(x: RelaySession, n: Name)
      requires Valid() && Known(x) && n.AcceptName? && !x.registered_
      modifies this`sessions_, this`waiters_, this`active_count_, this`st, handles.Values, directory
      ensures Valid() && x.id in old(st).sess && st == RelayModel.EstablishAccept(old(st), x.id, n)
    {
      hide NamesMatch, WaitsMatch, Objects, Others, RelaySession.Valid, RelayModel.Finish, Register, RelayModel.Send,
        AddBond, LoopTop, Wire, Format;
      Shown(x);
      PeerIsInvolution(n);
      var connectName := Peer(n).value;
      var connect := Find(Format(connectName), connectName);
      if connect != null { Shown(connect); }
      if connect == null || connect.established_ {
        assert Bondable(st, n).None?;
        NameOnly(x, n);
        Finish(x);
        return;
      }
      assert Bondable(st, n) == Some(connect.id);
      var added := RegisterSelf(x, n, true, ReadPtpHeader);
      if added {
        Send(connect, Wire(Notice(n.src)), Sent(x.id, Notice(n.src)));
        Send(x, Wire(Notice(n.dst)), Sent(x.id, Notice(n.dst)));
        BondWith(connect, x);
        GoOn(x, ReadPtpHeader);
      } else {
        Finish(x);
      }
    }

    // ---- waiting for a listener --------------------------------------------------------------------

    /** `await_session` up to its suspension: the timer joins the list of the name. */
    method AwaitSession(x: RelaySession, n: Name)
      requires Valid() && Known(x) && n.ConnectName? && !x.registered_
      modifies this`waiters_, this`st, x
      ensures Valid() && x.id in old(st).sess
      ensures st == Put(old(st), x.id, old(st).sess[x.id].(name := n, pc := AwaitListen(false)))
                    .(waiters := Append(old(st).waiters, ListenerOf(n), x.id))
    {
      hide NamesMatch, WaitsMatch, Objects, Others, RelaySession.Valid, Wire, Format;
      ghost var was := st;
      NameOnly(x, n);
      Suspend(x, AwaitListen(false));
      ghost var y := was.sess[x.id].(name := n, pc := AwaitListen(false));
      assert st.sess == was.sess[x.id := y];
      var l := ListenerOf(n);
      Waited(l);
      var timers := if Format(l) in waiters_ then waiters_[Format(l)] else [];
      AppendWaits(handles, st.waiters, waiters_, l, x.id);
      waiters_ := waiters_[Format(l) := timers + [x]];
      st := st.(waiters := Append(st.waiters, l, x.id));
    }

    /** `await_session` after its suspension: the timer leaves the list, an empty list goes. */
    method LeaveWaiters(x: RelaySession, n: Name)
      requires Valid() && Known(x)
      modifies this`waiters_, this`st
      ensures Valid() && st == old(st).(waiters := StopWaiting(old(st).waiters, n, x.id))
    {
      hide NamesMatch, WaitsMatch, Objects, Others, RelaySession.Valid, Wire, Format;
      Waited(n);
      if Format(n) in waiters_ {
        var timers := Without(waiters_[Format(n)], x);
        EraseWaits(handles, st.waiters, waiters_, n, x.id) by { IdsMatch(); }
        waiters_ := if timers == [] then waiters_ - {Format(n)} else waiters_[Format(n) := timers];
        st := st.(waiters := StopWaiting(st.waiters, n, x.id));
      }
    }

    lemma IdsMatch()
      requires Valid()
      ensures forall s :: s in handles ==> handles[s].id == s
    {
      hide NamesMatch, WaitsMatch;
    }

    // ---- the coroutine `run`, from one suspension to the next --------------------------------------

    /** After the init packet. */
    method Dispatch(x: RelaySession, init: Init, inTime: bool)
      requires Valid() && Known(x) && !x.registered_
      modifies this`sessions_, this`waiters_, this`active_count_, this`st, handles.Values, directory
      ensures Valid() && x.id in old(st).sess && st == RelayModel.Dispatch(old(st), x.id, init, inTime)
    {
      hide NamesMatch, WaitsMatch, Objects, Others, RelaySession.Valid, RelayModel.Finish, RelayModel.Enter,
        RelayModel.EstablishConnect,
        RelayModel.EstablishAccept, Format, Wire, Append;
      Shown(x);
      if init.kind == 0 {
        Enter(x, PdpName(init.src), ReadPdpHeader);
      } else if init.kind == 1 {
        Enter(x, ListenName(init.src), ReadSome);
      } else if init.kind == 2 {
        var n := ConnectName(init.src, init.dst);
        var listen := Find(Format(ListenerOf(n)), ListenerOf(n));
        if listen != null || !inTime {
          NameOnly(x, n);
          EstablishConnect(x, n);
        } else {
          AwaitSession(x, n);
        }
      } else if init.kind == 3 {
        EstablishAccept(x, AcceptName(init.src, init.dst));
      } else {
        Finish(x);
      }
    }

    method SendTo(target: Name, data: Bytes, ghost p: Sent)
      requires Valid() && data == Wire(p.frame)
      modifies this`st, handles.Values
      ensures Valid() && st == RelayModel.SendTo(old(st), target, p)
    {
      hide NamesMatch, WaitsMatch, Objects, Others, RelaySession.Valid, RelayModel.Send, Wire, Format;
      var dst := Find(Format(target), target);
      if dst != null {
        Send(dst, data, p);
      }
    }

    method Forward(x: RelaySession, target: Name, f: Frame, next: Pc)
      requires Valid() && Known(x)
      modifies this`sessions_, this`active_count_, this`st, handles.Values, directory
      ensures Valid() && x.id in old(st).sess && st == RelayModel.Forward(old(st), x.id, target, f, next)
    {
      hide NamesMatch, WaitsMatch, Objects, Others, RelaySession.Valid, RelayModel.SendTo, LoopTop, Wire, Format;
      Shown(x);
      SendTo(target, Wire(f), Sent(x.id, f));
      GoOn(x, next);
    }

    method PdpHeaderRead(x: RelaySession, raw: Bytes)
      requires Valid() && Known(x) && |raw| == 14
      modifies this`sessions_, this`active_count_, this`st, handles.Values, directory
      ensures Valid() && x.id in old(st).sess && st == RelayModel.PdpHeaderRead(old(st), x.id, raw)
    {
      hide NamesMatch, WaitsMatch, Objects, Others, RelaySession.Valid, RelayModel.Forward, RelayModel.Finish,
        RelayModel.Consume, Wire, Format, PdpSize, PdpTarget;
      Shown(x);
      var size, me := PdpSize(raw), x.name.src;
      if size > PDP_BLOCK_LIMIT {
        Finish(x);
        return;
      }
      Consume(x, raw);
      if size == 0 {
        Forward(x, PdpTarget(raw), PdpFrame(me, []), ReadPdpHeader);
      } else {
        Suspend(x, ReadPdpBlock(PdpTarget(raw), size));
      }
    }

    method PtpHeaderRead(x: RelaySession, raw: Bytes)
      requires Valid() && Known(x) && |raw| == 4 && IsPtpPipe(x.name)
      modifies this`sessions_, this`active_count_, this`st, handles.Values, directory
      ensures Valid() && x.id in old(st).sess && IsPtpPipe(old(st).sess[x.id].name)
      ensures st == RelayModel.PtpHeaderRead(old(st), x.id, raw)
    {
      hide NamesMatch, WaitsMatch, Objects, Others, RelaySession.Valid, RelayModel.Forward, RelayModel.Finish,
        RelayModel.Consume, Wire, Format, GetU32, Peer;
      Shown(x);
      var size := GetU32(raw);
      if size > PTP_BLOCK_LIMIT {
        Finish(x);
        return;
      }
      var peer := Peer(x.name);
      assert peer.Some? by { PeerIsInvolution(x.name); }
      Consume(x, raw);
      if size == 0 {
        Forward(x, peer.value, PtpFrame([]), ReadPtpHeader);
      } else {
        Suspend(x, ReadPtpBlock(size));
      }
    }

    method BlockRead(x: RelaySession, raw: Bytes)
      requires Valid() && Known(x)
      requires x.pc.ReadPdpBlock? || (x.pc.ReadPtpBlock? && IsPtpPipe(x.name))
      requires |raw| == x.pc.size
      modifies this`sessions_, this`active_count_, this`st, handles.Values, directory
      ensures Valid() && x.id in old(st).sess
      ensures var s, r := old(st).sess[x.id], RelayModel.Consume(old(st), x.id, raw);
              if old(x.pc).ReadPdpBlock?
              then st == RelayModel.Forward(r, x.id, old(x.pc).target, PdpFrame(s.name.src, raw), ReadPdpHeader)
              else Peer(s.name).Some?
                   && st == RelayModel.Forward(r, x.id, Peer(s.name).value, PtpFrame(raw), ReadPtpHeader)
    {
      hide NamesMatch, WaitsMatch, Objects, Others, RelaySession.Valid, RelayModel.Forward, RelayModel.Consume, Wire,
        Format, Peer;
      Shown(x);
      if x.pc.ReadPdpBlock? {
        var target, me := x.pc.target, x.name.src;
        Consume(x, raw);
        Forward(x, target, PdpFrame(me, raw), ReadPdpHeader);
      } else {
        var peer := Peer(x.name);
        assert peer.Some? by { PeerIsInvolution(x.name); }
        Consume(x, raw);
        Forward(x, peer.value, PtpFrame(raw), ReadPtpHeader);
      }
    }

    /** The accept loop takes a connection, unless 5000 sessions are active. */
    method Accept(s: Sid)
      requires Valid() && s !in handles
      modifies this
      ensures Valid()
      ensures st == if old(st).active >= MAX_SESSIONS then old(st)
                    else Put(old(st), s, NEW_SESSION).(active := old(st).active + 1)
    {
      if active_count_ >= MAX_SESSIONS {
        return;
      }
      hide NamesMatch, WaitsMatch, Objects, Others, RelaySession.Valid, RelaySession.View, RelayDirectory.Valid,
        RelayDirectory.Ports, NEW_SESSION;
      var x := new RelaySession(s);
      Admit(s, x);
    }

    method Admit(s: Sid, x: RelaySession)
      requires Valid() && s !in handles && x.id == s && x.Valid() && x.View() == NEW_SESSION
      modifies this`handles, this`active_count_, this`st
      ensures Valid() && st == Put(old(st), s, NEW_SESSION).(active := old(st).active + 1)
    {
      hide NamesMatch, WaitsMatch, Objects, RelaySession.Valid, RelaySession.View, RelayDirectory.Valid,
        RelayDirectory.Ports, NEW_SESSION;
      HandlesGrow(handles, st.reg, sessions_, st.waiters, waiters_, s, x);
      ObjectsGrow(handles, st.sess, s, x);
      handles := handles[s := x];
      active_count_ := active_count_ + 1;
      st := Put(st, s, NEW_SESSION).(active := st.active + 1);
    }

    lemma ObjectsGrow(handles: Handles, sess: map<Sid, Session>, s: Sid, x: RelaySession)
      requires Objects(handles, sess) && s !in handles
      requires x.id == s && x.Valid() && x.View() == NEW_SESSION
      ensures Objects(handles[s := x], sess[s := NEW_SESSION])
    {
    }

    method WriterStep(x: RelaySession)
      requires Valid() && Known(x)
      modifies this`st, x
      ensures Valid() && x.id in old(st).sess && st == Put(old(st), x.id, WriterLoop(old(st).sess[x.id]))
    {
      hide NamesMatch, WaitsMatch, Objects, Others, RelaySession.Valid, WriterLoop;
      Shown(x);
      x.RunWriter();
      Record(x);
    }

    method WriteStep(x: RelaySession, ok: bool)
      requires Valid() && Known(x) && x.writer.Writing?
      modifies this`st, x
      ensures Valid() && x.id in old(st).sess && old(st).sess[x.id].writer.Writing?
      ensures st == Put(old(st), x.id, WriteDone(old(st).sess[x.id], ok))
    {
      hide NamesMatch, WaitsMatch, Objects, Others, WriteDone, Wire, WireOf, Format;
      Shown(x);
      x.FinishWrite(ok);
      Record(x);
    }

    /** One event, run in place, is one step of the model, and the invariant of all runs goes on holding. */
    method Handle(e: Event)
      requires Valid() && Inv(st) && Enabled(st, e)
      modifies this, handles.Values, directory
      ensures Valid() && Inv(st)
      ensures st == Step(old(st), e)
    {
      hide Inv, NamesMatch, WaitsMatch, Objects, Others, RelaySession.Valid, Step, Enabled;
      StepKeeps(st, e);
      KnownHandles();
      EnabledOn(st, e);
      if e.Connected? {
        AcceptSteps(st, e.s);
        Accept(e.s);
      } else {
        HandleAt(handles[e.s], e);
      }
    }

    static lemma EnabledOn(st: State, e: Event)
      requires Enabled(st, e)
      ensures e.Connected? <==> e.s !in st.sess
    {
    }

    static lemma AcceptSteps(st: State, s: Sid)
      requires s !in st.sess
      ensures Enabled(st, Connected(s))
      ensures Step(st, Connected(s))
           == if st.active >= MAX_SESSIONS then st else Put(st, s, NEW_SESSION).(active := st.active + 1)
    {
    }

    lemma KnownHandles()
      requires Valid()
      ensures handles.Keys == st.sess.Keys
      ensures forall s :: s in handles ==> Known(handles[s]) && handles[s].id == s
    {
      hide NamesMatch, WaitsMatch;
    }

    method HandleAt(x: RelaySession, e: Event)
      requires Valid() && Known(x) && !e.Connected? && e.s == x.id && Inv(st) && Enabled(st, e)
      modifies this`sessions_, this`waiters_, this`active_count_, this`st, handles.Values, directory
      ensures Valid() && st == Step(old(st), e)
    {
      hide Inv, NamesMatch, WaitsMatch, Objects, Others, RelaySession.Valid, Step, Enabled;
      if e.HeaderRead? || e.BlockRead? || e.SomeRead? {
        HandleRead(x, e);
      } else if e.InitDone? {
        HandleInit(x, e.raw, e.inTime);
      } else if e.ListenResume? || e.BondResume? {
        HandleResume(x, e);
      } else {
        HandleSignal(x, e);
      }
    }

    /** Timers that fire and the writer's own steps. */
    method HandleSignal(x: RelaySession, e: Event)
      requires Valid() && Known(x) && e.s == x.id && Enabled(st, e)
      requires e.ListenTimer? || e.BondTimer? || e.WriterRuns? || e.Written?
      modifies this`st, x
      ensures Valid() && st == Step(old(st), e)
    {
      Shown(x);
      hide NamesMatch, WaitsMatch, Objects, Others, RelaySession.Valid, WriterLoop, WriteDone, Format, Wire;
      match e
      case ListenTimer(_) => Suspend(x, AwaitListen(true));
      case BondTimer(_) => Suspend(x, AwaitBond(true));
      case WriterRuns(_) => WriterStep(x);
      case Written(_, ok) => WriteStep(x, ok);
    }

    lemma UnregisteredYet(x: RelaySession)
      requires Valid() && Known(x) && Inv(st) && x.pc.ReadInit?
      ensures !x.registered_
    {
      hide Inv, NamesMatch, WaitsMatch, Objects, Others, RelaySession.Valid, LocalOk;
      Shown(x);
      LocalAt(st, x.id);
    }

    /** `run` once the init packet is in, or has failed to come. */
    method HandleInit(x: RelaySession, raw: Option<Bytes>, inTime: bool)
      requires Valid() && Known(x) && Inv(st) && Enabled(st, InitDone(x.id, raw, inTime))
      modifies this`sessions_, this`waiters_, this`active_count_, this`st, handles.Values, directory
      ensures Valid() && st == Step(old(st), InitDone(x.id, raw, inTime))
    {
      Shown(x);
      hide Inv, NamesMatch, WaitsMatch, Objects, Others, RelaySession.Valid, RelayModel.Finish, RelayModel.Dispatch,
        Format, Wire, ParseInit;
      if raw.None? {
        Finish(x);
      } else {
        UnregisteredYet(x);
        Dispatch(x, ParseInit(raw.value), inTime);
      }
    }

    /** The waits of `run` that come before `forward_loop`. */
    method HandleResume(x: RelaySession, e: Event)
      requires Valid() && Known(x) && e.s == x.id && Inv(st) && Enabled(st, e)
      requires e.ListenResume? || e.BondResume?
      modifies this`sessions_, this`waiters_, this`active_count_, this`st, handles.Values, directory
      ensures Valid() && st == Step(old(st), e)
    {
      Shown(x);
      hide Inv, NamesMatch, WaitsMatch, Objects, Others, RelaySession.Valid, RelayModel.Finish, RelayModel.Dispatch,
        RelayModel.EstablishConnect,
        LoopTop, StopWaiting, Format, Wire, ParseInit;
      if e.ListenResume? {
        ResumeListen(x);
      } else if !x.established_ {
        Finish(x);
      } else {
        GoOn(x, ReadPtpHeader);
      }
    }

    method ResumeListen(x: RelaySession)
      requires Valid() && Known(x) && x.name.ConnectName?
      modifies this`sessions_, this`waiters_, this`active_count_, this`st, handles.Values, directory
      ensures Valid() && x.id in old(st).sess && old(st).sess[x.id].name == old(x.name)
      ensures st == RelayModel.EstablishConnect(
                      old(st).(waiters := StopWaiting(old(st).waiters, ListenerOf(old(x.name)), x.id)), x.id, old(x.name))
    {
      hide Valid, RelayModel.EstablishConnect, StopWaiting, ListenerOf;
      Shown(x);
      var n := x.name;
      LeaveWaiters(x, ListenerOf(n));
      EstablishConnect(x, n);
    }

    /** The reads of `forward_loop`. */
    method HandleRead(x: RelaySession, e: Event)
      requires Valid() && Known(x) && e.s == x.id && Enabled(st, e)
      requires e.HeaderRead? || e.BlockRead? || e.SomeRead?
      modifies this`sessions_, this`active_count_, this`st, handles.Values, directory
      ensures Valid() && st == Step(old(st), e)
    {
      Shown(x);
      hide NamesMatch, WaitsMatch, Objects, Others, RelaySession.Valid, RelayModel.Finish, RelayModel.PdpHeaderRead,
        RelayModel.PtpHeaderRead,
        RelayModel.Forward, RelayModel.Consume, LoopTop, Format, Wire, Peer;
      match e
      case SomeRead(_, ok) =>
        if ok { GoOn(x, ReadSome); } else { Finish(x); }
      case HeaderRead(_, raw) =>
        if raw.None? { Finish(x); }
        else if x.pc.ReadPdpHeader? { PdpHeaderRead(x, raw.value); }
        else { PtpHeaderRead(x, raw.value); }
      case BlockRead(_, raw) =>
        if raw.None? { Finish(x); } else { BlockRead(x, raw.value); }
    }
  }

  lemma HandlesGrow(handles: Handles, reg: map<Name, Sid>, sessions: map<Bytes, RelaySession>,
                    waiting: map<Name, seq<Sid>>, waiters: map<Bytes, seq<RelaySession>>, s: Sid, x: RelaySession)
    requires NamesMatch(handles, reg, sessions) && WaitsMatch(handles, waiting, waiters) && s !in handles
    ensures NamesMatch(handles[s := x], reg, sessions) && WaitsMatch(handles[s := x], waiting, waiters)
  {
    hide Keyed, Format;
    var more := handles[s := x];
    assert Registered(more, reg) == Registered(handles, reg);
    assert AllResolved(more, waiting) == AllResolved(handles, waiting) by {
      forall n | n in waiting ensures Resolved(more, waiting[n]) == Resolved(handles, waiting[n]) {
      }
    }
  }

  lemma AppendWaits(handles: Handles, waiting: map<Name, seq<Sid>>, waiters: map<Bytes, seq<RelaySession>>, n: Name, s: Sid)
    requires WaitsMatch(handles, waiting, waiters) && s in handles
    ensures var timers := if Format(n) in waiters then waiters[Format(n)] else [];
            WaitsMatch(handles, Append(waiting, n, s), waiters[Format(n) := timers + [handles[s]]])
  {
    hide Format, Keyed;
    WaitAt(handles, waiting, waiters, n);
    var ws := if n in waiting then waiting[n] else [];
    var timers := if Format(n) in waiters then waiters[Format(n)] else [];
    assert Resolved(handles, ws + [s]) == timers + [handles[s]];
    hide WaitsMatch;
    WaitSet(handles, waiting, waiters, n, ws + [s]);
  }

  lemma {:induction false} ResolvedWithout(handles: Handles, ws: seq<Sid>, s: Sid)
    requires s in handles && (forall i :: 0 <= i < |ws| ==> ws[i] in handles)
    requires forall t :: t in handles ==> handles[t].id == t
    ensures forall i :: 0 <= i < |Without(ws, s)| ==> Without(ws, s)[i] in handles
    ensures Without(Resolved(handles, ws), handles[s]) == Resolved(handles, Without(ws, s))
  {
    if ws != [] {
      assert Resolved(handles, ws)[1..] == Resolved(handles, ws[1..]);
      assert Resolved(handles, ws)[0] == handles[s] <==> ws[0] == s;
      ResolvedWithout(handles, ws[1..], s);
      var rest := Without(ws[1..], s);
      assert Resolved(handles, [ws[0]] + rest) == [handles[ws[0]]] + Resolved(handles, rest);
      assert [] + rest == rest;
    }
  }

  lemma EraseWaits(handles: Handles, waiting: map<Name, seq<Sid>>, waiters: map<Bytes, seq<RelaySession>>, n: Name, s: Sid)
    requires WaitsMatch(handles, waiting, waiters) && s in handles && Format(n) in waiters
    requires forall t :: t in handles ==> handles[t].id == t
    ensures var timers := Without(waiters[Format(n)], handles[s]);
            WaitsMatch(handles, StopWaiting(waiting, n, s),
                       if timers == [] then waiters - {Format(n)} else waiters[Format(n) := timers])
  {
    hide Format, Keyed;
    WaitAt(handles, waiting, waiters, n);
    ResolvedWithout(handles, waiting[n], s);
    var rest := Without(waiting[n], s);
    assert |Resolved(handles, rest)| == |rest|;
    hide WaitsMatch, Without;
    if rest == [] {
      WaitRemoved(handles, waiting, waiters, n);
    } else {
      WaitSet(handles, waiting, waiters, n, rest);
    }
  }

  lemma FireNone(sess: map<Sid, Session>)
    ensures FireListeners(sess, []) == sess
  {
  }

  /** Cancelling one timer more. */
  lemma FireNext(sess: map<Sid, Session>, ws: seq<Sid>, i: nat)
    requires i < |ws| && ws[i] in sess
    ensures var f := FireListeners(sess, ws[..i]);
            && ws[i] in f
            && f[ws[i] := f[ws[i]].(pc := SignalListen(f[ws[i]].pc))] == FireListeners(sess, ws[..i + 1])
  {
    assert ws[..i + 1] == ws[..i] + [ws[i]];
  }
}
