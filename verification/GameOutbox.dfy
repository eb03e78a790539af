/** What reaches a client: a prefix of what was queued for it, in every run. */
module GameOutbox {
  import opened Bytes
  import opened Packets
  import opened GameModel
  import opened GameInvariant
  import opened GameViews
  import opened GameRuns
  import opened GameTheorems

  ghost predicate OutOk(u: User) {
    var o := u.out;
    && o.taken == o.delivered + (if o.writer.Writing? || o.writer.Failed? then 1 else 0)
    && o.taken <= |u.log|
    && (o.writer.Idle? ==> o.taken == |u.log| && !u.closed)
    && (o.writer.Stopped? || o.writer.Failed? ==> u.closed)
  }

  ghost predicate AllOut(us: map<Sid, User>) { forall t :: t in us ==> OutOk(us[t]) }

  // ---- handlers and the reader -------------------------------------------------------------------

  lemma PostedOut(u: User, v: User)
    requires OutOk(u) && Posted(u, v) && v.closed == u.closed
    ensures OutOk(v)
  {
  }

  lemma ClosedOut(u: User)
    requires OutOk(u)
    ensures OutOk(ClosedUser(u)) && OutOk(CutUser(u))
  {
  }

  lemma WorkedOut(h: Hub, s: Sid, r: Hub)
    requires AllOut(h.users) && s in h.users && WorksFor(h, s, r)
    ensures AllOut(r.users) && s in r.users
  {
    hide OutOk, Posted;
    forall t | t in r.users ensures OutOk(r.users[t]) {
      PostedOut(h.users[t], r.users[t]);
    }
  }

  lemma PutOut(h: Hub, s: Sid, v: User)
    requires AllOut(h.users) && OutOk(v)
    ensures AllOut(PutUser(h, s, v).users)
  {
    hide OutOk;
  }

  /** The reader's own fields have nothing to do with the writer's. */
  lemma SameOut(u: User, v: User)
    requires OutOk(u) && v.out == u.out && v.log == u.log && v.closed == u.closed
    ensures OutOk(v)
  {
  }

  lemma ShutOut(h: Hub, s: Sid)
    requires AllOut(h.users) && s in h.users
    ensures AllOut(Shut(h, s).users)
  {
    hide OutOk, ClosedUser;
    ClosedOut(h.users[s]);
    PutOut(h, s, ClosedUser(h.users[s]));
  }

  lemma ObeyOut(h: Hub, s: Sid, c: Command, size: nat, o: Oracle)
    requires AllOut(h.users) && s in h.users && size <= |h.users[s].rx|
    ensures AllOut(Obey(h, s, c, size, o).0.users)
  {
    hide OutOk, AllOut, Execute, WorksFor, Shut;
    var eaten := PutUser(h, s, Eaten(h.users[s], size));
    UserOut(h, s);
    SameOut(h.users[s], Eaten(h.users[s], size));
    PutOut(h, s, Eaten(h.users[s], size));
    var (r, ok) := Execute(eaten, s, c, o);
    WorkedOut(eaten, s, r);
    if ok {
      UserOut(r, s);
      var v := r.users[s].(commands := r.users[s].commands + [c]);
      SameOut(r.users[s], v);
      PutOut(r, s, v);
    } else {
      ShutOut(r, s);
    }
  }

  lemma UserOut(h: Hub, s: Sid)
    requires AllOut(h.users) && s in h.users
    ensures OutOk(h.users[s])
  {
    hide OutOk;
  }

  lemma {:induction false} DrainOut(h: Hub, s: Sid, o: Oracle)
    requires AllOut(h.users) && s in h.users
    ensures AllOut(Drain(h, s, o).users)
    decreases |h.users[s].rx|
  {
    var u := h.users[s];
    if u.rx != [] && !u.closed {
      hide Obey, AllOut, Shut;
      match Lex(u.game.Some?, u.rx)
      case NeedMore =>
      case Malformed => ShutOut(h, s);
      case Got(c, size) =>
        ObeyOut(h, s, c, size, o);
        var (r, ok) := Obey(h, s, c, size, o);
        if ok { DrainOut(r, s, o); }
    }
  }

  lemma EndOut(h: Hub, s: Sid)
    requires AllOut(h.users) && s in h.users
    ensures AllOut(EndReader(h, s).users)
  {
    hide AllOut, Reap, WorksFor;
    ShutOut(h, s);
    WorkedOut(Shut(h, s), s, Reap(Shut(h, s), s));
  }

  // ---- the writer --------------------------------------------------------------------------------

  lemma LoopOut(u: User)
    requires OutOk(u) && !u.out.writer.Writing? && !u.out.writer.Failed?
    ensures OutOk(WriterLoop(u))
  {
  }

  lemma DoneOut(u: User, ok: bool)
    requires OutOk(u) && u.out.writer.Writing?
    ensures OutOk(WriteDone(u, ok))
  {
  }

  // ---- runs --------------------------------------------------------------------------------------

  lemma ChunkOut(h: Hub, s: Sid, bytes: Bytes, o: Oracle)
    requires AllOut(h.users) && Enabled(h, Chunk(s, bytes))
    ensures AllOut(Step(h, Chunk(s, bytes), o).users)
  {
    hide OutOk, AllOut, Drain, EndReader;
    UserOut(h, s);
    SameOut(h.users[s], Received(h.users[s], bytes));
    PutOut(h, s, Received(h.users[s], bytes));
    var got := PutUser(h, s, Received(h.users[s], bytes));
    DrainOut(got, s, o);
    EndOut(Drain(got, s, o), s);
  }

  lemma AnnounceOut(h: Hub)
    requires AllOut(h.users)
    ensures AllOut(Announce(h).users)
  {
    AnnounceSent(h);
    hide OutOk, Announce, Posted;
    forall t | t in h.users ensures OutOk(Announce(h).users[t]) {
      assert OnlySentTo(h.users[t], Announce(h).users[t]);
      PostedOut(h.users[t], Announce(h).users[t]);
    }
  }

  lemma FailOut(h: Hub, s: Sid, o: Oracle)
    requires AllOut(h.users) && Enabled(h, ReadFailed(s))
    ensures AllOut(Step(h, ReadFailed(s), o).users)
  {
    hide OutOk, AllOut, EndReader, CutUser;
    UserOut(h, s);
    ClosedOut(h.users[s]);
    PutOut(h, s, CutUser(h.users[s]));
    EndOut(PutUser(h, s, CutUser(h.users[s])), s);
  }

  lemma CloseOut(h: Hub, s: Sid, o: Oracle)
    requires AllOut(h.users) && Enabled(h, CloseFrom(s))
    ensures AllOut(Step(h, CloseFrom(s), o).users)
  {
    hide OutOk, AllOut, Shut, CutUser;
    UserOut(h, s);
    ClosedOut(h.users[s]);
    PutOut(h, s, CutUser(h.users[s]));
    ShutOut(PutUser(h, s, CutUser(h.users[s])), s);
  }

  lemma WriterOut(h: Hub, e: Event, o: Oracle)
    requires AllOut(h.users) && Enabled(h, e) && (e.WriterRuns? || e.Written?)
    ensures AllOut(Step(h, e, o).users)
  {
    hide OutOk, AllOut, WriterLoop, WriteDone;
    UserOut(h, e.s);
    if e.WriterRuns? {
      LoopOut(h.users[e.s]);
      PutOut(h, e.s, WriterLoop(h.users[e.s]));
    } else {
      DoneOut(h.users[e.s], e.ok);
      PutOut(h, e.s, WriteDone(h.users[e.s], e.ok));
    }
  }

  lemma OpenOut(h: Hub, s: Sid, ip: Ip)
    requires AllOut(h.users)
    ensures AllOut(h.users[s := NewUser(ip)])
  {
    assert OutOk(NewUser(ip));
    hide OutOk, NewUser;
  }

  lemma StepOut(h: Hub, e: Event, o: Oracle)
    requires AllOut(h.users) && Enabled(h, e)
    ensures AllOut(Step(h, e, o).users)
  {
    hide AllOut, LoopHead, Drain, EndReader, Announce, Shut, NewUser, Received, WriterLoop, WriteDone, CutUser;
    match e
    case Open(s, ip) => OpenOut(h, s, ip);
    case Chunk(s, bytes) => ChunkOut(h, s, bytes, o);
    case ReadFailed(s) => FailOut(h, s, o);
    case CloseFrom(s) => CloseOut(h, s, o);
    case WriterRuns(s) => WriterOut(h, e, o);
    case Written(s, ok) => WriterOut(h, e, o);
    case Shutdown => AnnounceOut(h);
  }

  lemma {:induction false} RunOut(h: Hub, turns: seq<Turn>)
    requires AllOut(h.users) && Schedulable(h, turns)
    ensures AllOut(Run(h, turns).users)
    decreases |turns|
  {
    if turns != [] {
      hide AllOut, Step, Enabled, Faithful;
      StepOut(h, turns[0].0, turns[0].1);
      RunOut(Step(h, turns[0].0, turns[0].1), turns[1..]);
    }
  }

  lemma ReachableOut(h: Hub, s: Sid)
    requires Reachable(h) && s in h.users
    ensures OutOk(h.users[s])
  {
    hide OutOk;
    var turns :| Schedulable(EMPTY_HUB, turns) && Run(EMPTY_HUB, turns) == h;
    RunOut(EMPTY_HUB, turns);
  }

  // ---- theorems ----------------------------------------------------------------------------------

  lemma {:induction false} EncodeAllSplit(a: seq<Packet>, b: seq<Packet>)
    ensures EncodeAll(a + b) == EncodeAll(a) + EncodeAll(b)
  {
    hide Encode;
    if b == [] {
      assert a + b == a;
    } else {
      var n := |b| - 1;
      assert a + b == (a + b[..n]) + [b[n]] && b == b[..n] + [b[n]];
      EncodeAllSplit(a, b[..n]);
      EncodeAllAppend(a + b[..n], b[n]);
      EncodeAllAppend(b[..n], b[n]);
    }
  }

  /** In every run the packets written to a client are a prefix of those queued for it, with at most one
      more in flight; so its bytes are a prefix of the stream, and read as just those packets. */
  lemma ReceivedIsPrefix(h: Hub, s: Sid)
    requires Reachable(h) && s in h.users
    ensures var u := h.users[s];
            && u.out.delivered <= u.out.taken <= u.out.delivered + 1 && u.out.taken <= |u.log|
            && EncodeAll(u.log[..u.out.delivered]) <= EncodeAll(u.log)
            && DecodeAll(EncodeAll(u.log[..u.out.delivered])) == u.log[..u.out.delivered]
  {
    ReachableOut(h, s);
    hide Reachable, EncodeAll, DecodeAll;
    var u := h.users[s];
    var got, rest := u.log[..u.out.delivered], u.log[u.out.delivered..];
    assert u.log == got + rest;
    EncodeAllSplit(got, rest);
    StreamRoundTrip(got);
  }

  /** No lost wake-up: a writer sleeps only when the session is open and everything has been written. */
  lemma WriterSleepsWhenDone(h: Hub, s: Sid)
    requires Reachable(h) && s in h.users && h.users[s].out.writer.Idle?
    ensures h.users[s].out.delivered == |h.users[s].log| && !h.users[s].closed
  {
    ReachableOut(h, s);
    hide Reachable;
  }

  /** So a member whose writer sleeps has received all it needs to know who is in its group. */
  lemma CaughtUpMemberSeesGroup(h: Hub, t: Sid)
    requires Reachable(h) && t in h.users && h.users[t].out.writer.Idle? && h.users[t].group.Some?
    ensures h.users[t].logAtJoin <= h.users[t].out.delivered <= |h.users[t].log|
    ensures View(h.users[t].log[h.users[t].logAtJoin..h.users[t].out.delivered])
         == Others(h.users, ListAt(h.games, h.users[t].game.GetOr([]), h.users[t].group.value), t)
  {
    WriterSleepsWhenDone(h, t);
    GroupViewAgrees(h, t);
    hide Reachable, View, Others, ListAt;
    var u := h.users[t];
    assert u.log[u.logAtJoin..u.out.delivered] == u.log[u.logAtJoin..];
  }
}
