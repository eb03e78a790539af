/** Every step of every run of the hub keeps the invariant. */
module GameRuns {
  import opened Bytes
  import opened SessionNames
  import opened Packets
  import opened GameModel
  import opened GameInvariant
  import opened GameViews
  import opened GameHandlers
  import opened GameReader

  /** A session's history agrees with the parse of its bytes, up to a close from outside. */
  ghost predicate Faultless(u: User) {
    var o := Parse(START, u.input);
    && (u.cut ==> u.closed)
    && u.commands <= o.commands
    && (!u.cut ==> Reads(FreshUser(u), u, o))
    && (u.closed && !u.cut ==> u.reaped)
  }

  function FreshUser(u: User): User { u.(commands := []) }

  ghost predicate AllFaultless(us: map<Sid, User>) { forall t :: t in us ==> Faultless(us[t]) }

  ghost predicate Healthy(h: Hub) { Inv(h) && AllFaultless(h.users) }

  // ---- what an activation leaves alone -------------------------------------------------------

  lemma SentFaultless(u: User, v: User)
    requires OnlySentTo(u, v) && Faultless(u)
    ensures Faultless(v)
  {
    hide Parse;
  }

  lemma ConfinedGone(h: Hub, s: Sid, r: Hub)
    requires Confined(h, s, r) && Gone(h.users) && !h.users[s].reaped
    ensures Gone(r.users) && !r.users[s].reaped
  {
  }

  lemma ConfinedCounted(h: Hub, s: Sid, r: Hub)
    requires Confined(h, s, r) && Counted(h)
    ensures Counted(r)
  {
    assert Unreaped(r.users) == Unreaped(h.users);
  }

  // ---- the end of a reader -------------------------------------------------------------------

  /** `close_connection` gives one connection back, and there is one to give. */
  lemma ReapCounted(h: Hub, s: Sid)
    requires Sound(h) && Counted(h) && s in h.users && !h.users[s].reaped
    ensures Counted(Reap(h, s)) && Reap(h, s).connections == h.connections - 1
  {
    hide Sound, Reap, OnlySentTo;
    ReapSound(h, s);
    ReapConnections(h, s);
    OneLess(h, s, Reap(h, s));
  }

  ghost predicate SameReaped(us: map<Sid, User>, vs: map<Sid, User>) {
    us.Keys == vs.Keys && forall t :: t in us ==> vs[t].reaped == us[t].reaped
  }

  lemma SameCount(us: map<Sid, User>, vs: map<Sid, User>)
    requires SameReaped(us, vs)
    ensures Unreaped(vs) == Unreaped(us)
  {
  }

  lemma OneLess(h: Hub, s: Sid, r: Hub)
    requires s in h.users && WorksFor(h, s, r) && !h.users[s].reaped && r.users[s].reaped
    ensures |Unreaped(h.users)| > 0 && |Unreaped(r.users)| == |Unreaped(h.users)| - 1
  {
    assert Unreaped(r.users) == Unreaped(h.users) - {s};
    assert s in Unreaped(h.users);
  }

  lemma OneMore(us: map<Sid, User>, s: Sid, u: User)
    requires s !in us && !u.reaped
    ensures |Unreaped(us[s := u])| == |Unreaped(us)| + 1
  {
    assert Unreaped(us[s := u]) == Unreaped(us) + {s};
  }

  lemma ReapConnections(h: Hub, s: Sid)
    requires s in h.users && !h.users[s].reaped
    ensures Reap(h, s).connections == if h.connections != 0 then h.connections - 1 else 0
  {
    hide WorksFor, OnlySentTo;
  }

  lemma ReapGone(h: Hub, s: Sid)
    requires Sound(h) && s in h.users && !h.users[s].reaped && h.users[s].closed && Gone(h.users)
    ensures Gone(Reap(h, s).users)
  {
    ReapSound(h, s);
    hide Sound, Reap;
  }

  /** The last steps of a reader that is done: nothing of the parse changes, the session is gone. */
  lemma EndKeeps(h: Hub, s: Sid)
    requires Inv(h) && s in h.users && !h.users[s].reaped
    requires forall t :: t in h.users && t != s ==> Faultless(h.users[t])
    requires Faultless(EndReader(h, s).users[s])
    ensures Inv(EndReader(h, s)) && AllFaultless(EndReader(h, s).users)
  {
    hide Sound, Gone, Counted, Reap, Faultless, AllFaultless, OnlySentTo, WorksFor, Posted;
    var shut := Shut(h, s);
    ShutSound(h, s);
    ShutCounted(h, s);
    ReapSound(shut, s);
    ReapCounted(shut, s);
    ReapGone(shut, s);
    WorkedFaultless(shut, s, EndReader(h, s));
  }

  lemma ShutCounted(h: Hub, s: Sid)
    requires Counted(h) && Gone(h.users) && s in h.users
    ensures Counted(Shut(h, s)) && Gone(Shut(h, s).users)
    ensures var u := Shut(h, s).users[s]; u.closed && u.reaped == h.users[s].reaped
    ensures forall t :: t in h.users && t != s ==> Shut(h, s).users[t] == h.users[t]
  {
    SameCount(h.users, Shut(h, s).users);
    hide Unreaped;
  }

  lemma WorkedFaultless(h: Hub, s: Sid, r: Hub)
    requires s in h.users && WorksFor(h, s, r) && Faultless(r.users[s])
    requires forall t :: t in h.users && t != s ==> Faultless(h.users[t])
    ensures AllFaultless(r.users)
  {
    hide Faultless, OnlySentTo;
    forall t | t in r.users ensures Faultless(r.users[t]) {
      if t != s { SentFaultless(h.users[t], r.users[t]); }
    }
  }

  lemma EndsAs(h: Hub, s: Sid)
    requires Sound(h) && s in h.users && !h.users[s].reaped
    ensures EndReader(h, s).users[s] == ClosedUser(h.users[s]).(reaped := true, group := None, game := None)
  {
    ShutSound(h, s);
    ReapSound(Shut(h, s), s);
    hide Sound, Reap;
  }

  // ---- events --------------------------------------------------------------------------------

  lemma OpenKeeps(h: Hub, s: Sid, ip: Ip)
    requires Healthy(h) && s !in h.users && h.connections < SERVER_USER_MAXIMUM
    ensures Healthy(h.(users := h.users[s := NewUser(ip)], connections := h.connections + 1))
  {
    hide Sound, Unreaped, Faultless, NewUser, Gone;
    OpenSound(h, s, ip, h.connections + 1);
    NewFaultless(ip);
    OneMore(h.users, s, NewUser(ip));
    NewGone(h.users, s, NewUser(ip));
  }

  lemma NewGone(us: map<Sid, User>, s: Sid, u: User)
    requires Gone(us) && s !in us && !u.reaped
    ensures Gone(us[s := u])
  {
  }

  lemma NewFaultless(ip: Ip)
    ensures Faultless(NewUser(ip)) && !NewUser(ip).reaped
  {
  }

  lemma TouchGone(us: map<Sid, User>, s: Sid, v: User)
    requires Gone(us) && s in us && Quiet(us[s], v) && v.reaped == us[s].reaped
    ensures Gone(us[s := v])
  {
  }

  lemma TouchCount(us: map<Sid, User>, s: Sid, v: User)
    requires s in us && v.reaped == us[s].reaped
    ensures Unreaped(us[s := v]) == Unreaped(us)
  {
  }

  lemma TouchInv(h: Hub, s: Sid, v: User)
    requires Inv(h) && s in h.users && Quiet(h.users[s], v) && v.reaped == h.users[s].reaped
    ensures Inv(PutUser(h, s, v))
  {
    hide Sound, Gone, Unreaped, Quiet;
    TouchSound(h, s, v);
    TouchGone(h.users, s, v);
    TouchCount(h.users, s, v);
  }

  /** Before the buffer is looked at. */
  lemma ReceivedKeeps(h: Hub, s: Sid, bytes: Bytes)
    requires Inv(h) && s in h.users
    ensures Inv(PutUser(h, s, Received(h.users[s], bytes)))
  {
    hide Inv;
    TouchInv(h, s, Received(h.users[s], bytes));
  }

  /** The parse takes up where it stopped; a session closed from outside reads no further. */
  lemma ReceivedParses(u: User, bytes: Bytes)
    requires Faultless(u) && !u.reaped
    ensures u.closed ==> u.cut && u.commands <= Parse(START, u.input + bytes).commands
    ensures !u.closed ==>
              var o := Parse(START, u.input);
              !o.dead && Parse(START, u.input + bytes) == Resume(o, bytes)
              && u.commands == o.commands && u.rx == o.rest && PhaseOf(u) == o.phase
  {
    ParseAppend(START, u.input, bytes);
    CommandsGrow(u.input, bytes);
    hide Parse, Resume;
    assert [] + Parse(START, u.input).commands == Parse(START, u.input).commands;
  }

  ghost predicate Parsed(u: User) {
    var o := Parse(START, u.input);
    !u.cut && u.commands == o.commands && u.closed == o.dead && (!o.dead ==> u.rx == o.rest && PhaseOf(u) == o.phase)
  }

  lemma ParsedIsReads(u: User)
    ensures Parsed(u) <==> !u.cut && Reads(FreshUser(u), u, Parse(START, u.input))
  {
    hide Parse;
    var o := Parse(START, u.input);
    assert [] + o.commands == o.commands;
  }

  /** After the inner loop the session stands where the parse of all its bytes stands. */
  lemma DrainedParses(h: Hub, s: Sid, bytes: Bytes, o: Oracle)
    requires s in h.users && Faultless(h.users[s]) && !h.users[s].reaped && !h.users[s].closed
    ensures var got := PutUser(h, s, Received(h.users[s], bytes));
            Confined(got, s, Drain(got, s, o)) && Parsed(Drain(got, s, o).users[s])
  {
    hide Parse, Drain;
    var u := h.users[s];
    var got := PutUser(h, s, Received(u, bytes));
    ReceivedParses(u, bytes);
    DrainParses(got, s, o);
  }

  lemma ChunkOpen(h: Hub, s: Sid, bytes: Bytes, o: Oracle)
    requires Healthy(h) && Enabled(h, Chunk(s, bytes)) && !h.users[s].closed
    ensures Healthy(Step(h, Chunk(s, bytes), o))
    ensures !Drain(PutUser(h, s, Received(h.users[s], bytes)), s, o).users[s].closed ==>
              |Drain(PutUser(h, s, Received(h.users[s], bytes)), s, o).users[s].rx| < 144
  {
    var got := PutUser(h, s, Received(h.users[s], bytes));
    var r := Drain(got, s, o);
    assert Faultless(h.users[s]);
    DrainedParses(h, s, bytes, o);
    ReceivedKeeps(h, s, bytes);
    DrainSound(got, s, o);
    assert Step(h, Chunk(s, bytes), o) == LoopHead(r, s);
    ConfinedGone(got, s, r);
    ConfinedCounted(got, s, r);
    OthersFaultless(h, s, got, r);
    hide Drain, Parse, Sound, EndReader, Gone, Counted, Confined;
    ParsedIsReads(r.users[s]);
    if r.users[s].closed {
      EndsAs(r, s);
      EndKeeps(r, s);
    } else {
      ParsedIsOpen(r.users[s]);
      AllButOne(r.users, s);
    }
  }

  lemma AllButOne(us: map<Sid, User>, s: Sid)
    requires s in us && Faultless(us[s]) && forall t :: t in us && t != s ==> Faultless(us[t])
    ensures AllFaultless(us)
  {
    hide Faultless;
  }

  lemma ParsedIsOpen(u: User)
    requires Parsed(u) && !u.closed
    ensures |u.rx| < 144
  {
  }

  lemma OthersFaultless(h: Hub, s: Sid, got: Hub, r: Hub)
    requires AllFaultless(h.users) && s in h.users && s in got.users
    requires got == PutUser(h, s, got.users[s]) && Confined(got, s, r)
    ensures forall t :: t in r.users && t != s ==> Faultless(r.users[t])
  {
    hide Faultless, OnlySentTo;
    forall t | t in r.users && t != s ensures Faultless(r.users[t]) {
      assert got.users[t] == h.users[t];
      SentFaultless(h.users[t], r.users[t]);
    }
  }

  lemma ChunkClosed(h: Hub, s: Sid, bytes: Bytes, o: Oracle)
    requires Healthy(h) && Enabled(h, Chunk(s, bytes)) && h.users[s].closed
    ensures Healthy(Step(h, Chunk(s, bytes), o))
  {
    var got := PutUser(h, s, Received(h.users[s], bytes));
    assert Drain(got, s, o) == got;
    assert Faultless(h.users[s]);
    ReceivedParses(h.users[s], bytes);
    ReceivedKeeps(h, s, bytes);
    assert forall t :: t in got.users && t != s ==> Faultless(got.users[t]);
    hide Drain, Parse, Sound, EndReader, Gone, Counted;
    EndsAs(got, s);
    EndKeeps(got, s);
  }

  lemma CutQuiet(u: User)
    ensures Quiet(u, CutUser(u)) && Quiet(u, ClosedUser(CutUser(u)))
  {
  }

  lemma CutFaultless(u: User, v: User)
    requires Faultless(u) && !u.reaped && v.cut == CutUser(u).cut && v.closed
    requires v.input == u.input && v.commands == u.commands
    ensures Faultless(v)
  {
    hide Parse;
  }

  /** A close from outside leaves the history right; on a session that is closed already it does nothing. */
  lemma CloseFaultless(u: User)
    requires Faultless(u)
    ensures Faultless(ClosedUser(CutUser(u))) && (u.closed ==> ClosedUser(CutUser(u)) == u)
  {
    hide Parse;
  }

  lemma OthersTouched(h: Hub, s: Sid, r: Hub)
    requires AllFaultless(h.users) && s in h.users && s in r.users && r == PutUser(h, s, r.users[s])
    ensures forall t :: t in r.users && t != s ==> Faultless(r.users[t])
  {
    hide Faultless;
  }

  lemma FailKeeps(h: Hub, s: Sid, o: Oracle)
    requires Healthy(h) && Enabled(h, ReadFailed(s))
    ensures Healthy(Step(h, ReadFailed(s), o))
  {
    var cut := PutUser(h, s, CutUser(h.users[s]));
    hide Sound, Gone, Counted, EndReader, Quiet, Faultless;
    var u := h.users[s];
    CutQuiet(u);
    TouchInv(h, s, CutUser(u));
    EndsAs(cut, s);
    CutFaultless(u, EndReader(cut, s).users[s]);
    OthersTouched(h, s, cut);
    EndKeeps(cut, s);
  }

  lemma CloseIs(h: Hub, s: Sid, o: Oracle)
    requires Enabled(h, CloseFrom(s))
    ensures Step(h, CloseFrom(s), o) == PutUser(h, s, ClosedUser(CutUser(h.users[s])))
  {
    var u := CutUser(h.users[s]);
    assert h.users[s := u][s := ClosedUser(u)] == h.users[s := ClosedUser(u)];
  }

  /** One session changes in ways that nobody else notices. */
  lemma TouchHealthy(h: Hub, s: Sid, v: User)
    requires Healthy(h) && s in h.users && Quiet(h.users[s], v) && v.reaped == h.users[s].reaped && Faultless(v)
    ensures Healthy(PutUser(h, s, v))
  {
    hide Inv, Quiet, Faultless;
    TouchInv(h, s, v);
    OthersTouched(h, s, PutUser(h, s, v));
    AllButOne(PutUser(h, s, v).users, s);
  }

  lemma CloseKeeps(h: Hub, s: Sid, o: Oracle)
    requires Healthy(h) && Enabled(h, CloseFrom(s))
    ensures Healthy(Step(h, CloseFrom(s), o))
  {
    CloseIs(h, s, o);
    hide Inv, Quiet, Faultless, Step;
    CutQuiet(h.users[s]);
    CloseFaultless(h.users[s]);
    TouchHealthy(h, s, ClosedUser(CutUser(h.users[s])));
  }

  // ---- the writer ------------------------------------------------------------------------------

  lemma WriterLoopOnly(u: User)
    ensures WriterLoop(u) == u.(out := WriterLoop(u).out) && Quiet(u, WriterLoop(u))
  {
  }

  lemma WriteDoneOnly(u: User, ok: bool)
    ensures var v := if ok then u else ClosedUser(CutUser(u));
            WriteDone(u, ok) == v.(out := WriteDone(u, ok).out)
    ensures Quiet(u, WriteDone(u, ok))
  {
    hide WriterLoop;
    if ok { WriterLoopOnly(u.(out := u.out.(delivered := u.out.delivered + 1))); } else { CutQuiet(u); }
  }

  lemma OutFaultless(u: User, o: Outbox)
    requires Faultless(u)
    ensures Faultless(u.(out := o))
  {
    hide Parse;
  }

  lemma WriterKeeps(h: Hub, s: Sid, o: Oracle)
    requires Healthy(h) && Enabled(h, WriterRuns(s))
    ensures Healthy(Step(h, WriterRuns(s), o))
  {
    hide Inv, Quiet, Faultless, WriterLoop;
    WriterLoopOnly(h.users[s]);
    OutFaultless(h.users[s], WriterLoop(h.users[s]).out);
    TouchHealthy(h, s, WriterLoop(h.users[s]));
  }

  lemma WrittenKeeps(h: Hub, s: Sid, ok: bool, o: Oracle)
    requires Healthy(h) && Enabled(h, Written(s, ok))
    ensures Healthy(Step(h, Written(s, ok), o))
  {
    hide Inv, Quiet, Faultless, WriteDone;
    var u := h.users[s];
    WriteDoneOnly(u, ok);
    CloseFaultless(u);
    OutFaultless(if ok then u else ClosedUser(CutUser(u)), WriteDone(u, ok).out);
    TouchHealthy(h, s, WriteDone(u, ok));
  }

  lemma AnnounceSent(h: Hub)
    ensures AllOnlySentTo(h.users, Announce(h).users) && Announce(h).connections == h.connections
  {
  }

  lemma SentKeeps(h: Hub, r: Hub)
    requires Healthy(h) && Sound(r) && AllOnlySentTo(h.users, r.users) && r.connections == h.connections
    ensures Healthy(r)
  {
    hide Sound, Faultless, Unreaped;
    SameCount(h.users, r.users);
    forall t | t in r.users ensures Faultless(r.users[t]) {
      SentFaultless(h.users[t], r.users[t]);
    }
  }

  lemma AnnounceKeeps(h: Hub)
    requires Healthy(h)
    ensures Healthy(Announce(h))
  {
    var r := Announce(h);
    AnnounceSent(h);
    AnnounceSound(h);
    hide Sound, Faultless, Unreaped, Announce, OnlySentTo;
    SentKeeps(h, r);
  }

  lemma StepKeeps(h: Hub, e: Event, o: Oracle)
    requires Healthy(h) && Enabled(h, e)
    ensures Healthy(Step(h, e, o))
  {
    match e
    case Open(s, ip) => if h.connections < SERVER_USER_MAXIMUM { hide *; OpenStep(h, s, ip, o); }
    case Chunk(s, bytes) =>
      if h.users[s].closed { hide Healthy, Step; ChunkClosed(h, s, bytes, o); }
      else { hide Healthy, Step; ChunkOpen(h, s, bytes, o); }
    case ReadFailed(s) => hide Healthy, Step; FailKeeps(h, s, o);
    case CloseFrom(s) => hide Healthy, Step; CloseKeeps(h, s, o);
    case WriterRuns(s) => hide Healthy, Step; WriterKeeps(h, s, o);
    case Written(s, ok) => hide Healthy, Step; WrittenKeeps(h, s, ok, o);
    case Shutdown => hide Healthy, Announce; AnnounceKeeps(h);
  }

  lemma OpenStep(h: Hub, s: Sid, ip: Ip, o: Oracle)
    requires Healthy(h) && Enabled(h, Open(s, ip))
    ensures Healthy(Step(h, Open(s, ip), o))
  {
    if h.connections < SERVER_USER_MAXIMUM {
      hide Healthy;
      OpenKeeps(h, s, ip);
    }
  }

  // ---- runs ----------------------------------------------------------------------------------

  /** A step of the scheduler's choosing: an event, and the answers that the outside gives to it. */
  type Turn = (Event, Oracle)

  ghost predicate Schedulable(h: Hub, turns: seq<Turn>)
    decreases |turns|
  {
    turns == []
    || (Enabled(h, turns[0].0) && Faithful(turns[0].1) && Schedulable(Step(h, turns[0].0, turns[0].1), turns[1..]))
  }

  ghost function Run(h: Hub, turns: seq<Turn>): Hub
    requires Schedulable(h, turns)
    decreases |turns|
  {
    if turns == [] then h else Run(Step(h, turns[0].0, turns[0].1), turns[1..])
  }

  lemma {:induction false} RunKeeps(h: Hub, turns: seq<Turn>)
    requires Healthy(h) && Schedulable(h, turns)
    ensures Healthy(Run(h, turns))
    decreases |turns|
  {
    if turns != [] {
      hide Healthy, Step, Enabled, Faithful;
      StepKeeps(h, turns[0].0, turns[0].1);
      RunKeeps(Step(h, turns[0].0, turns[0].1), turns[1..]);
    }
  }

  ghost predicate Reachable(h: Hub) {
    exists turns: seq<Turn> :: Schedulable(EMPTY_HUB, turns) && Run(EMPTY_HUB, turns) == h
  }

  lemma ReachableKeeps(h: Hub)
    requires Reachable(h)
    ensures Healthy(h)
  {
    hide Healthy;
    var turns :| Schedulable(EMPTY_HUB, turns) && Run(EMPTY_HUB, turns) == h;
    EmptyKeeps();
    RunKeeps(EMPTY_HUB, turns);
  }

  lemma EmptyKeeps()
    ensures Healthy(EMPTY_HUB)
  {
    assert Unreaped(EMPTY_HUB.users) == {};
  }
}
