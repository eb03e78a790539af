/** How sessions begin and end, what a shutdown says, and that what is queued can always be delivered. */
module GameEnds {
  import opened Bytes
  import opened SessionNames
  import opened Packets
  import opened GameModel
  import opened GameInvariant
  import opened GameGraph
  import opened GameViews
  import opened GameHandlers
  import opened GameReader
  import opened GameRuns
  import opened GameTheorems
  import opened GameCommands
  import opened GameOutbox
  import opened GameWitness

  // ---- the beginning ---------------------------------------------------------------------------

  ghost predicate Fresh(u: User) {
    && !u.closed && !u.reaped && u.game.None? && u.group.None? && u.log == [] && u.rx == [] && u.input == []
    && u.out.delivered == 0
  }

  /** A connection is let in if and only if fewer than 1024 sessions have not ended. */
  lemma OpenDecides(h: Hub, s: Sid, ip: Ip, o: Oracle)
    requires Reachable(h) && s !in h.users
    ensures Enabled(h, Open(s, ip))
    ensures var q := Step(h, Open(s, ip), o);
            if |Unreaped(h.users)| < 1024
            then q.users.Keys == h.users.Keys + {s} && NobodyElse(h.(users := h.users[s := q.users[s]]), s, q)
                 && Fresh(q.users[s]) && q.users[s].ip == ip && q.games == h.games && q.connections == h.connections + 1
            else q == h
  {
    ReachableKeeps(h);
    hide Sound, Reachable;
  }

  // ---- the end ---------------------------------------------------------------------------------

  /** The whole effect of a session's end: it is closed and done with, off every list and out of the count,
      and the others in its group, if it was in one, are sent its address once. */
  ghost predicate Ends(h: Hub, s: Sid, q: Hub)
    requires s in h.users
  {
    && LeaveTold(h, s, q) && s in q.users && q.connections == h.connections - 1 && q.shutdown == h.shutdown
    && (var v := q.users[s];
        v.closed && v.reaped && v.game.None? && v.group.None? && v.log == h.users[s].log)
    && (forall g: Bytes :: Dropped(UsersAt(h.games, g), UsersAt(q.games, g), s))
    && (forall g: Bytes, k: Bytes :: Dropped(ListAt(h.games, g, k), ListAt(q.games, g, k), s))
  }

  ghost predicate ListsDrop(games: map<Bytes, Game>, games': map<Bytes, Game>, s: Sid) {
    forall g: Bytes, k: Bytes :: Dropped(ListAt(games, g, k), ListAt(games', g, k), s)
  }

  ghost predicate UsersDrop(games: map<Bytes, Game>, games': map<Bytes, Game>, s: Sid) {
    forall g: Bytes :: Dropped(UsersAt(games, g), UsersAt(games', g), s)
  }

  /** A session is on no list but its own group's. */
  lemma OnNoOtherList(h: Hub, s: Sid, g: Bytes, k: Bytes)
    requires Sound(h) && s in h.users && !InGroup(h.users[s], g, k)
    ensures s !in ListAt(h.games, g, k)
  {
    if g in h.games { SoundLists(h, g, k); }
  }

  lemma OnNoOtherGame(h: Hub, s: Sid, g: Bytes)
    requires Sound(h) && s in h.users && h.users[s].game != Some(g)
    ensures s !in UsersAt(h.games, g)
  {
    assert g in h.games ==> UsersOf(h.users, g, h.games[g].users);
  }

  lemma LeaveDrops(h: Hub, s: Sid)
    requires Sound(h) && s in h.users
    ensures s in LeaveGroup(h, s).users
    ensures var r := LeaveGroup(h, s);
            LeaveTold(h, s, r) && ListsDrop(h.games, r.games, s) && SameUsers(h.games, r.games)
  {
    var u, r := h.users[s], LeaveGroup(h, s);
    GroupedAlways(h, s);
    hide Sound, LeaveGroup, Dropped, ListAt, UsersAt, WorksFor, WasSent;
    if u.group.Some? {
      LeaveTells(h, s);
      forall g: Bytes, k: Bytes ensures Dropped(ListAt(h.games, g, k), ListAt(r.games, g, k), s) {
        if g != u.game.value || k != u.group.value {
          OnNoOtherList(h, s, g, k);
          DroppedNot(ListAt(h.games, g, k), s);
        }
      }
    } else {
      UngroupedStays(h, s);
      forall g: Bytes, k: Bytes ensures Dropped(ListAt(h.games, g, k), ListAt(r.games, g, k), s) {
        OnNoOtherList(h, s, g, k);
        DroppedNot(ListAt(h.games, g, k), s);
      }
      forall t | t in h.users ensures WasSent(h.users[t], h.users[t], []) { SentNone(h.users[t]); }
    }
  }

  lemma GroupedAlways(h: Hub, s: Sid)
    requires Sound(h) && s in h.users
    ensures h.users[s].group.Some? ==> h.users[s].game.Some?
  {
    assert PointerLive(h.games, h.users[s]);
  }

  lemma UngroupedStays(h: Hub, s: Sid)
    requires s in h.users && h.users[s].group.None?
    ensures LeaveGroup(h, s) == h
  {
  }

  lemma DroppedNot(v: seq<Sid>, s: Sid)
    requires s !in v
    ensures Dropped(v, v, s)
  {
  }

  lemma QuitIs(h: Hub, s: Sid)
    requires s in h.users && (h.users[s].game.Some? ==> h.users[s].game.value in h.games)
    ensures QuitGame(h, s) == h.(games := QuitGame(h, s).games, users := QuitGame(h, s).users)
    ensures QuitGame(h, s).games
         == if h.users[s].game.Some? then LoggedOut(h.games, h.users[s].game.value, s) else h.games
  {
    hide WorksFor, RemoveFirst;
  }

  lemma LoggedOutUsers(games: map<Bytes, Game>, g: Bytes, s: Sid, x: Bytes)
    requires g in games
    ensures UsersAt(LoggedOut(games, g, s), x) == if x == g then RemoveFirst(games[g].users, s) else UsersAt(games, x)
  {
    hide RemoveFirst;
  }

  lemma LoggedOutGroups(games: map<Bytes, Game>, g: Bytes, s: Sid, x: Bytes, k: Bytes)
    requires g in games && (g !in LoggedOut(games, g, s) ==> games[g].groups == map[])
    ensures ListAt(LoggedOut(games, g, s), x, k) == ListAt(games, x, k)
  {
    hide RemoveFirst;
  }

  lemma QuitDrops(h: Hub, s: Sid)
    requires Sound(h) && s in h.users && h.users[s].group.None?
    ensures UsersDrop(h.games, QuitGame(h, s).games, s)
  {
    hide Sound, Dropped, WorksFor, RemoveFirst, QuitGame, LoggedOut, UsersAt;
    GameIsListed(h, s);
    QuitIs(h, s);
    forall x: Bytes ensures Dropped(UsersAt(h.games, x), UsersAt(QuitGame(h, s).games, x), s) {
      if h.users[s].game == Some(x) {
        LoggedOutUsers(h.games, x, s, x);
        UsersAtIs(h.games, x);
        RemoveFirstDrops(h.games[x].users, s);
      } else {
        if h.users[s].game.Some? { LoggedOutUsers(h.games, h.users[s].game.value, s, x); }
        OnNoOtherGame(h, s, x);
        DroppedNot(UsersAt(h.games, x), s);
      }
    }
  }

  lemma UsersAtIs(games: map<Bytes, Game>, g: Bytes)
    requires g in games
    ensures UsersAt(games, g) == games[g].users
  {
  }

  lemma QuitSpares(h: Hub, s: Sid)
    requires Sound(h) && s in h.users && h.users[s].group.None?
    ensures forall g: Bytes, k: Bytes :: ListAt(QuitGame(h, s).games, g, k) == ListAt(h.games, g, k)
  {
    hide Sound, WorksFor, RemoveFirst, QuitGame, LoggedOut, ListAt;
    GameIsListed(h, s);
    QuitIs(h, s);
    if h.users[s].game.Some? {
      var g := h.users[s].game.value;
      if g !in LoggedOut(h.games, g, s) { DestroyedGameIsEmpty(h, s, g); }
      forall x: Bytes, k: Bytes ensures ListAt(QuitGame(h, s).games, x, k) == ListAt(h.games, x, k) {
        LoggedOutGroups(h.games, g, s, x, k);
      }
    }
  }

  lemma GameIsListed(h: Hub, s: Sid)
    requires Sound(h) && s in h.users
    ensures h.users[s].game.Some? ==> h.users[s].game.value in h.games
  {
    assert PointerLive(h.games, h.users[s]);
  }

  /** `close_connection` on a session that is not reaped yet. */
  lemma ReapDrops(h: Hub, s: Sid)
    requires Sound(h) && s in h.users && !h.users[s].reaped
    ensures var r := Reap(h, s);
            && LeaveTold(h, s, r) && ListsDrop(h.games, r.games, s) && UsersDrop(h.games, r.games, s)
            && r.shutdown == h.shutdown
            && r.users[s] == h.users[s].(reaped := true, group := None, game := None)
  {
    hide *;
    var marked := PutUser(h, s, h.users[s].(reaped := true));
    MarkedSound(h, s);
    LeaveDrops(marked, s);
    LeaveSound(marked, s);
    var left := LeaveGroup(marked, s);
    LeftUngrouped(marked.users[s], left.users[s]);
    QuitDrops(left, s);
    QuitSpares(left, s);
    QuitSound(left, s);
    ReapIs(h, s);
    ReapSound(h, s);
    DropsAfter(h.games, left.games, QuitGame(left, s).games, s);
    MarkedTold(h, s, marked, left, Reap(h, s));
  }

  lemma LeftUngrouped(u: User, v: User)
    requires v == u.(group := None)
    ensures v.group.None?
  {
  }

  lemma MarkedSound(h: Hub, s: Sid)
    requires Sound(h) && s in h.users
    ensures var m := PutUser(h, s, h.users[s].(reaped := true));
            && Sound(m) && s in m.users && m == h.(users := m.users) && NobodyElse(h, s, m)
            && m.users[s] == h.users[s].(reaped := true)
  {
    hide Quiet, Sound;
    MarkedQuiet(h.users[s]);
    TouchSound(h, s, h.users[s].(reaped := true));
  }

  lemma MarkedQuiet(u: User)
    ensures Quiet(u, u.(reaped := true))
  {
  }

  lemma ReapIs(h: Hub, s: Sid)
    requires s in h.users && !h.users[s].reaped
    ensures var q := QuitGame(LeaveGroup(PutUser(h, s, h.users[s].(reaped := true)), s), s);
            Reap(h, s) == q.(connections := if q.connections != 0 then q.connections - 1 else 0)
    ensures Reap(h, s).shutdown == h.shutdown
  {
    hide WorksFor;
  }

  lemma DropsAfter(games: map<Bytes, Game>, mid: map<Bytes, Game>, games': map<Bytes, Game>, s: Sid)
    requires ListsDrop(games, mid, s) && SameUsers(games, mid) && UsersDrop(mid, games', s)
    requires forall g: Bytes, k: Bytes :: ListAt(games', g, k) == ListAt(mid, g, k)
    ensures ListsDrop(games, games', s) && UsersDrop(games, games', s)
  {
    hide Dropped, ListAt, UsersAt;
    forall g: Bytes ensures Dropped(UsersAt(games, g), UsersAt(games', g), s) {
      assert UsersAt(mid, g) == UsersAt(games, g);
    }
    forall g: Bytes, k: Bytes ensures Dropped(ListAt(games, g, k), ListAt(games', g, k), s) {
      assert ListAt(games', g, k) == ListAt(mid, g, k);
    }
  }

  lemma MarkedTold(h: Hub, s: Sid, marked: Hub, left: Hub, q: Hub)
    requires s in h.users && NobodyElse(h, s, marked) && s in marked.users
    requires marked.users[s] == h.users[s].(reaped := true)
    requires LeaveTold(marked, s, left) && s in left.users && q.users == left.users[s := left.users[s].(game := None)]
    ensures LeaveTold(h, s, q)
  {
    hide WasSent, InGroup;
    assert NobodyElse(left, s, q);
    SameTold(h, s, marked, left, q);
  }

  lemma EndIs(h: Hub, s: Sid)
    requires s in h.users
    ensures EndReader(h, s) == Reap(Shut(h, s), s)
  {
    hide Reap;
  }

  lemma ShutLooks(h: Hub, s: Sid)
    requires s in h.users
    ensures var m := Shut(h, s);
            && m == h.(users := m.users) && NobodyElse(h, s, m) && s in m.users && m.users[s].closed
            && m.users[s] == h.users[s].(closed := true, out := m.users[s].out)
  {
  }

  /** The reader's last acts, whoever called for them. */
  lemma EndReaderEnds(h: Hub, s: Sid)
    requires Inv(h) && s in h.users && !h.users[s].reaped
    ensures Ends(h, s, EndReader(h, s))
  {
    InvIsSound(h);
    hide *;
    var m := Shut(h, s);
    EndIs(h, s);
    ShutLooks(h, s);
    ShutSound(h, s);
    ReapDrops(m, s);
    EndCounts(h, s);
    EndsTold(h, s, m, Reap(m, s));
  }

  lemma InvIsSound(h: Hub)
    requires Inv(h)
    ensures Sound(h)
  {
  }

  lemma EndCounts(h: Hub, s: Sid)
    requires Inv(h) && s in h.users && !h.users[s].reaped
    ensures EndReader(h, s).connections == h.connections - 1
  {
    hide Sound, Reap;
    ShutSound(h, s);
    SameCount(h.users, Shut(h, s).users);
    ReapCounted(Shut(h, s), s);
  }

  lemma EndsTold(h: Hub, s: Sid, m: Hub, r: Hub)
    requires s in h.users && s in m.users && s in r.users && m == h.(users := m.users) && NobodyElse(h, s, m)
    requires m.users[s] == h.users[s].(closed := true, out := m.users[s].out)
    requires LeaveTold(m, s, r) && ListsDrop(m.games, r.games, s) && UsersDrop(m.games, r.games, s)
    requires r.shutdown == m.shutdown && r.connections == h.connections - 1
    requires r.users[s] == m.users[s].(reaped := true, group := None, game := None)
    ensures Ends(h, s, r)
  {
    hide Dropped, ListAt, UsersAt, LeaveTold;
    assert NobodyElse(r, s, r);
    SameTold(h, s, m, r, r);
  }

  /** A session that differs only in what its own reader knows ends in the same way. */
  lemma EndsAlike(h: Hub, s: Sid, x: Hub, q: Hub)
    requires s in h.users && NobodyElse(h, s, x) && s in x.users && Ends(x, s, q)
    requires x.games == h.games && x.connections == h.connections && x.shutdown == h.shutdown
    requires x.users[s].log == h.users[s].log && x.users[s].ip == h.users[s].ip
    requires x.users[s].game == h.users[s].game && x.users[s].group == h.users[s].group
    ensures Ends(h, s, q)
  {
    hide Dropped, ListAt, UsersAt, LeaveTold;
    assert NobodyElse(q, s, q);
    SameTold(h, s, x, q, q);
  }

  // ---- the ways a session ends -----------------------------------------------------------------

  lemma FailIs(h: Hub, s: Sid, o: Oracle)
    requires Enabled(h, ReadFailed(s))
    ensures Step(h, ReadFailed(s), o) == EndReader(PutUser(h, s, CutUser(h.users[s])), s)
  {
    hide EndReader;
  }

  lemma CutLooks(h: Hub, s: Sid)
    requires Inv(h) && s in h.users
    ensures var m := PutUser(h, s, CutUser(h.users[s]));
            && Inv(m) && m == h.(users := m.users) && NobodyElse(h, s, m) && s in m.users
            && m.users[s] == h.users[s].(cut := m.users[s].cut)
  {
    hide Inv, Quiet;
    CutQuiet(h.users[s]);
    TouchInv(h, s, CutUser(h.users[s]));
  }

  lemma FailedEnds(h: Hub, s: Sid, o: Oracle)
    requires Inv(h) && Enabled(h, ReadFailed(s))
    ensures Ends(h, s, Step(h, ReadFailed(s), o))
  {
    hide Inv, Ends, EndReader, LeaveTold, Step, CutUser;
    var m := PutUser(h, s, CutUser(h.users[s]));
    FailIs(h, s, o);
    CutLooks(h, s);
    EndReaderEnds(m, s);
    EndsAlike(h, s, m, EndReader(m, s));
  }

  lemma ReceivedLooks(h: Hub, s: Sid, bytes: Bytes)
    requires Inv(h) && s in h.users
    ensures var m := PutUser(h, s, Received(h.users[s], bytes));
            && Inv(m) && m == h.(users := m.users) && NobodyElse(h, s, m) && s in m.users
            && m.users[s] == h.users[s].(rx := h.users[s].rx + bytes, input := h.users[s].input + bytes)
  {
    hide Inv;
    ReceivedKeeps(h, s, bytes);
  }

  lemma ClosedEnds(h: Hub, s: Sid, bytes: Bytes, o: Oracle)
    requires Inv(h) && Enabled(h, Chunk(s, bytes)) && h.users[s].closed
    ensures Ends(h, s, Step(h, Chunk(s, bytes), o))
  {
    hide Inv, Ends, EndReader, LeaveTold, Step, Received, Drain;
    var m := PutUser(h, s, Received(h.users[s], bytes));
    ChunkIs(h, s, bytes, o);
    ReceivedLooks(h, s, bytes);
    DrainClosed(m, s, o);
    EndReaderEnds(m, s);
    EndsAlike(h, s, m, EndReader(m, s));
  }

  /** However a reader stops, by a read that fails or by one that finds its session closed, that is the
      session's end. */
  lemma ReaderStops(h: Hub, e: Event, o: Oracle)
    requires Reachable(h) && Enabled(h, e)
    requires e.ReadFailed? || (e.Chunk? && h.users[e.s].closed)
    ensures Ends(h, e.s, Step(h, e, o))
  {
    ReachableKeeps(h);
    hide Ends, Step, Inv, Reachable, AllFaultless, LeaveTold;
    if e.ReadFailed? { FailedEnds(h, e.s, o); } else { ClosedEnds(h, e.s, e.bytes, o); }
  }

  /** The reader's state when it refuses: a byte that is not due stays in the buffer, a command that is
      out of its turn is taken off. */
  ghost function Refusing(h: Hub, s: Sid, bytes: Bytes, c: Command): Hub
    requires s in h.users
  {
    if c.Login? == h.users[s].game.Some? then PutUser(h, s, Received(h.users[s], bytes))
    else Ready(h, s, bytes).(clock := h.clock + 1)
  }

  lemma ShutTwice(h: Hub, s: Sid)
    requires s in h.users
    ensures s in Shut(h, s).users && Shut(h, s).users[s].closed && Shut(h, s).users[s].rx == h.users[s].rx
    ensures EndReader(Shut(h, s), s) == EndReader(h, s)
  {
    hide Reap;
    assert Shut(Shut(h, s), s) == Shut(h, s);
  }

  lemma NotTaken(u: User, v: User, c: Command)
    requires !Takes(u, c) && c.Login? != u.game.Some? && v.game == u.game && v.group == u.group
    ensures Accept(PhaseOf(v), c).None?
  {
    hide Accept;
  }

  lemma RefusesNothing(x: Hub, s: Sid, c: Command, o: Oracle)
    requires s in x.users && Accept(PhaseOf(x.users[s]), c).None?
    ensures Dispatch(x, s, c, o) == (x, false)
  {
    DispatchAgrees(x, s, c, o);
    hide Dispatch, Accept, WorksFor;
  }

  /** A command out of its turn: the reader closes, and that is all. */
  lemma RefusedIs(h: Hub, s: Sid, bytes: Bytes, c: Command, o: Oracle)
    requires Healthy(h) && s in h.users && Completes(h, s, bytes, c) && !Takes(h.users[s], c)
    ensures Enabled(h, Chunk(s, bytes)) && s in Refusing(h, s, bytes, c).users
    ensures Step(h, Chunk(s, bytes), o) == EndReader(Refusing(h, s, bytes, c), s)
  {
    hide *;
    var u := h.users[s];
    var got := PutUser(h, s, Received(u, bytes));
    var x := Ready(h, s, bytes).(clock := h.clock + 1);
    CompletesEnabled(h, s, bytes, c);
    ChunkIs(h, s, bytes, o);
    Arrived(h, s, bytes, c);
    EatenIsReady(h, s, bytes);
    ReadyHas(h, s, bytes);
    DrainUnfolds(got, s, o);
    RefusingIs(h, s, bytes, c);
    ReadyRx(h, s, bytes);
    CommandFits(c);
    if c.Login? == u.game.Some? {
      ShutTwice(got, s);
      LoopHeadIs(Shut(got, s), s);
    } else {
      ObeyIs(got, s, c, |EncodeCommand(c)|, o);
      NotTaken(u, x.users[s], c);
      RefusesNothing(x, s, c, o);
      ShutTwice(x, s);
      LoopHeadIs(Shut(x, s), s);
    }
  }

  lemma ReadyRx(h: Hub, s: Sid, bytes: Bytes)
    requires s in h.users
    ensures s in Ready(h, s, bytes).users
    ensures var v := Ready(h, s, bytes).users[s];
            v.rx == [] && v.game == h.users[s].game && v.group == h.users[s].group
  {
  }

  lemma RefusingIs(h: Hub, s: Sid, bytes: Bytes, c: Command)
    requires s in h.users
    ensures Refusing(h, s, bytes, c)
         == if c.Login? == h.users[s].game.Some? then PutUser(h, s, Received(h.users[s], bytes))
            else Ready(h, s, bytes).(clock := h.clock + 1)
  {
  }

  ghost predicate ReadOnly(h: Hub, s: Sid, bytes: Bytes, m: Hub) {
    && m == h.(users := m.users, clock := m.clock) && NobodyElse(h, s, m) && s in h.users && s in m.users
    && m.users[s] == h.users[s].(rx := m.users[s].rx, input := h.users[s].input + bytes)
  }

  lemma ReceivedReads(h: Hub, s: Sid, bytes: Bytes)
    requires s in h.users
    ensures ReadOnly(h, s, bytes, PutUser(h, s, Received(h.users[s], bytes)))
  {
  }

  lemma ReadyReads(h: Hub, s: Sid, bytes: Bytes)
    requires s in h.users
    ensures ReadOnly(h, s, bytes, Ready(h, s, bytes).(clock := h.clock + 1))
  {
  }

  lemma RefusingReads(h: Hub, s: Sid, bytes: Bytes, c: Command)
    requires Inv(h) && s in h.users
    ensures Inv(Refusing(h, s, bytes, c)) && ReadOnly(h, s, bytes, Refusing(h, s, bytes, c))
  {
    hide *;
    RefusingIs(h, s, bytes, c);
    if c.Login? == h.users[s].game.Some? {
      ReceivedKeeps(h, s, bytes);
      ReceivedReads(h, s, bytes);
    } else {
      ReadyInv(h, s, bytes);
      ReadyReads(h, s, bytes);
    }
  }

  lemma ReadyInv(h: Hub, s: Sid, bytes: Bytes)
    requires Inv(h) && s in h.users
    ensures Inv(Ready(h, s, bytes).(clock := h.clock + 1))
  {
    hide Inv, Quiet;
    var v := h.users[s].(rx := [], input := h.users[s].input + bytes);
    FedQuiet(h.users[s], bytes);
    TouchInv(h, s, v);
    TickInv(Ready(h, s, bytes));
  }

  lemma TickInv(h: Hub)
    requires Inv(h)
    ensures Inv(h.(clock := h.clock + 1))
  {
    hide Sound;
    TickSound(h);
  }

  /** A command out of its turn ends the session: a login after login or anything else before it, joining
      from within a group, leaving or chatting from outside one, a name or code that is not valid. */
  lemma RefusedEnds(h: Hub, s: Sid, bytes: Bytes, c: Command, o: Oracle)
    requires Reachable(h) && Completes(h, s, bytes, c) && !Takes(h.users[s], c)
    ensures Enabled(h, Chunk(s, bytes)) && Ends(h, s, Step(h, Chunk(s, bytes), o))
  {
    ReachableKeeps(h);
    CompletesIs(h, s, bytes, c);
    hide *;
    RefusedIs(h, s, bytes, c, o);
    HealthyInv(h);
    OpenAndIn(h, s);
    RefusingReads(h, s, bytes, c);
    ReadOnlyEnds(h, s, bytes, Refusing(h, s, bytes, c));
  }

  lemma HealthyInv(h: Hub)
    requires Healthy(h)
    ensures Inv(h)
  {
  }

  lemma ReadOnlyEnds(h: Hub, s: Sid, bytes: Bytes, m: Hub)
    requires Inv(m) && ReadOnly(h, s, bytes, m) && !h.users[s].reaped
    ensures Ends(h, s, EndReader(m, s))
  {
    hide Ends, Inv, EndReader;
    EndReaderEnds(m, s);
    EndsAlike(h, s, m, EndReader(m, s));
  }

  /** Closing a session from outside, or a write that fails, closes it and does nothing more: it stays on its
      lists until its reader notices, and its writer does not sleep on. */
  lemma OutsideCloses(h: Hub, e: Event, o: Oracle)
    requires Reachable(h) && Enabled(h, e) && (e.CloseFrom? || (e.Written? && !e.ok))
    ensures e.s in h.users
    ensures var q, u := Step(h, e, o), h.users[e.s];
            && NobodyElse(h, e.s, q) && SameTables(h, q)
            && var v := q.users[e.s];
               && v == u.(closed := true, cut := v.cut, out := v.out)
               && v.out.delivered == u.out.delivered && v.out.taken == u.out.taken
               && v.out.writer == if e.Written? then GameModel.Failed
                                  else if u.out.writer.Idle? then GameModel.Runnable else u.out.writer
  {
    ReachableOut(h, e.s);
    if e.CloseFrom? { CloseIs(h, e.s, o); }
    hide Reachable;
  }

  // ---- shutting down ---------------------------------------------------------------------------

  /** The announcement as the client reads it: the text in a field of 64 bytes, and nobody's name. */
  ghost predicate IsFarewell(p: Packet) {
    && p.ChatPkt? && p.message[..32] == "PROMETHEUS HUB IS SHUTTING DOWN!"
    && (forall i :: 32 <= i < 64 ==> p.message[i] == '\0') && (forall i :: 0 <= i < 128 ==> p.name[i] == '\0')
  }

  lemma FarewellReads()
    ensures IsFarewell(ShutdownPacket())
  {
  }

  lemma ToldSent(u: User)
    ensures WasSent(u, Told(u), if u.group.Some? then [ShutdownPacket()] else [])
  {
    SentNone(u);
    SentOne(u, ShutdownPacket());
  }

  /** The first shutdown tells every open member of a group, once, and nobody else; a second does nothing. */
  lemma ShutdownArrives(h: Hub, o: Oracle)
    ensures h.shutdown ==> Step(h, Shutdown, o) == h
    ensures var q := Step(h, Shutdown, o);
            && q.shutdown && q.games == h.games && q.connections == h.connections && q.users.Keys == h.users.Keys
            && (!h.shutdown ==> exists p: Packet :: IsFarewell(p) && AllSent(h, p, q))
  {
    FarewellReads();
    hide WasSent, Told, ShutdownPacket;
    if !h.shutdown {
      forall t | t in h.users
        ensures WasSent(h.users[t], Told(h.users[t]), if h.users[t].group.Some? then [ShutdownPacket()] else [])
      {
        ToldSent(h.users[t]);
      }
      assert AllSent(h, ShutdownPacket(), Step(h, Shutdown, o));
    }
  }

  ghost predicate AllSent(h: Hub, p: Packet, q: Hub) {
    && q.users.Keys == h.users.Keys
    && forall t :: t in h.users ==> WasSent(h.users[t], q.users[t], if h.users[t].group.Some? then [p] else [])
  }

  // ---- orderly clients -------------------------------------------------------------------------

  /** A client that has sent just the commands `cs`, in any pieces, and was not closed by others, is served
      if and only if each command was in its turn. It was obeyed in all of them then, and otherwise in those
      before the first that was not, at which it was closed. */
  lemma OrderlyClientIsServed(h: Hub, s: Sid, cs: seq<Command>)
    requires Reachable(h) && s in h.users && !h.users[s].cut && h.users[s].input == EncodeCommands(cs)
    ensures var u := h.users[s];
            && (Orderly(cs) <==> !u.closed)
            && (Orderly(cs) ==> u.commands == cs && u.rx == [] && Tells(cs, PhaseOf(u)))
            && (!Orderly(cs) ==> StopsAfter(START, cs, u.commands))
  {
    hide *;
    ReaderRefinesParse(h, s);
    OrderlyIsAccepted(cs);
    ParseEncoded(START, cs, []);
    assert EncodeCommands(cs) + [] == EncodeCommands(cs);
    if AcceptAll(START, cs).Some? {
      ParseNothing(AcceptAll(START, cs).value);
      assert cs + [] == cs;
    }
  }

  lemma ParseNothing(p: Phase)
    ensures Parse(p, []) == Outcome([], false, p, [])
  {
  }

  // ---- after the end ---------------------------------------------------------------------------

  /** A closed session accepts nothing more for sending, and its writer takes no more from the queue. */
  ghost predicate Silent(u: User, v: User) {
    v.closed && v.log == u.log && v.out.taken == u.out.taken
  }

  lemma PostedSilent(u: User, v: User)
    requires u.closed && v.closed && Posted(u, v)
    ensures Silent(u, v)
  {
  }

  ghost predicate AllSilent(us: map<Sid, User>, vs: map<Sid, User>) {
    us.Keys <= vs.Keys && forall t :: t in us && us[t].closed ==> Silent(us[t], vs[t])
  }

  lemma SilentTrans(us: map<Sid, User>, vs: map<Sid, User>, ws: map<Sid, User>)
    requires AllSilent(us, vs) && AllSilent(vs, ws)
    ensures AllSilent(us, ws)
  {
    forall t | t in us && us[t].closed ensures Silent(us[t], ws[t]) {
      assert Silent(us[t], vs[t]);
    }
  }

  lemma PutSilent(us: map<Sid, User>, s: Sid, v: User)
    requires s in us && (us[s].closed ==> Silent(us[s], v))
    ensures AllSilent(us, us[s := v])
  {
  }

  lemma WorkedSilent(h: Hub, s: Sid, r: Hub)
    requires s in h.users && WorksFor(h, s, r)
    ensures AllSilent(h.users, r.users)
  {
    hide Silent, Posted;
    forall t | t in h.users && h.users[t].closed ensures Silent(h.users[t], r.users[t]) {
      PostedSilent(h.users[t], r.users[t]);
    }
  }

  lemma EndSilent(h: Hub, s: Sid)
    requires s in h.users
    ensures AllSilent(h.users, EndReader(h, s).users)
  {
    hide Reap, WorksFor, AllSilent;
    PutSilent(h.users, s, ClosedUser(h.users[s]));
    WorkedSilent(Shut(h, s), s, Reap(Shut(h, s), s));
    SilentTrans(h.users, Shut(h, s).users, EndReader(h, s).users);
  }

  lemma DrainSilent(h: Hub, s: Sid, o: Oracle)
    requires s in h.users
    ensures AllSilent(h.users, Drain(h, s, o).users)
  {
    if h.users[s].closed {
      DrainClosed(h, s, o);
    } else {
      DrainParses(h, s, o);
      hide Drain, Parse, Reads, Silent, Posted;
      forall t | t in h.users && h.users[t].closed ensures Silent(h.users[t], Drain(h, s, o).users[t]) {
        PostedSilent(h.users[t], Drain(h, s, o).users[t]);
      }
    }
  }

  lemma ChunkSilent(h: Hub, s: Sid, bytes: Bytes, o: Oracle)
    requires Enabled(h, Chunk(s, bytes))
    ensures AllSilent(h.users, Step(h, Chunk(s, bytes), o).users)
  {
    hide Drain, EndReader, AllSilent, Step;
    ChunkIs(h, s, bytes, o);
    var got := PutUser(h, s, Received(h.users[s], bytes));
    PutSilent(h.users, s, Received(h.users[s], bytes));
    DrainSilent(got, s, o);
    var r := Drain(got, s, o);
    SilentTrans(h.users, got.users, r.users);
    EndSilent(r, s);
    SilentTrans(h.users, r.users, EndReader(r, s).users);
  }

  lemma FailSilent(h: Hub, s: Sid, o: Oracle)
    requires Enabled(h, ReadFailed(s))
    ensures AllSilent(h.users, Step(h, ReadFailed(s), o).users)
  {
    hide EndReader, AllSilent, Step;
    FailIs(h, s, o);
    var cut := PutUser(h, s, CutUser(h.users[s]));
    PutSilent(h.users, s, CutUser(h.users[s]));
    EndSilent(cut, s);
    SilentTrans(h.users, cut.users, EndReader(cut, s).users);
  }

  lemma WriterSilent(h: Hub, e: Event, o: Oracle)
    requires Enabled(h, e) && (e.CloseFrom? || e.WriterRuns? || e.Written?)
    ensures AllSilent(h.users, Step(h, e, o).users)
  {
    if e.CloseFrom? { CloseIs(h, e.s, o); }
    PutSilent(h.users, e.s, Step(h, e, o).users[e.s]);
  }

  lemma AnnounceSilent(h: Hub)
    ensures AllSilent(h.users, Announce(h).users)
  {
  }

  lemma StepSilent(h: Hub, e: Event, o: Oracle)
    requires Enabled(h, e)
    ensures AllSilent(h.users, Step(h, e, o).users)
  {
    match e
    case Open(_, _) => hide Silent;
      forall t | t in h.users && h.users[t].closed ensures Silent(h.users[t], Step(h, e, o).users[t]) {
        AlwaysSilent(h.users[t]);
      }
    case Chunk(s, bytes) => hide *; ChunkSilent(h, s, bytes, o);
    case ReadFailed(s) => hide *; FailSilent(h, s, o);
    case CloseFrom(_) => hide *; WriterSilent(h, e, o);
    case WriterRuns(_) => hide *; WriterSilent(h, e, o);
    case Written(_, _) => hide *; WriterSilent(h, e, o);
    case Shutdown => AnnounceSilent(h); hide AllSilent, Announce;
  }

  lemma AlwaysSilent(u: User)
    requires u.closed
    ensures Silent(u, u)
  {
  }

  lemma {:induction false} RunSilent(h: Hub, turns: seq<Turn>)
    requires Schedulable(h, turns)
    ensures AllSilent(h.users, Run(h, turns).users)
    decreases |turns|
  {
    hide Silent;
    if turns == [] {
      forall t | t in h.users && h.users[t].closed ensures Silent(h.users[t], h.users[t]) { AlwaysSilent(h.users[t]); }
    } else {
      hide Step, Enabled, Faithful, AllSilent;
      var q := Step(h, turns[0].0, turns[0].1);
      StepSilent(h, turns[0].0, turns[0].1);
      RunSilent(q, turns[1..]);
      SilentTrans(h.users, q.users, Run(q, turns[1..]).users);
    }
  }

  /** In every run, from the moment a session is closed nothing more is queued for it, and nothing that was
      queued is taken up; at most the packet that was being written is still delivered. */
  lemma NothingAfterClose(h: Hub, turns: seq<Turn>, s: Sid)
    requires Reachable(h) && Schedulable(h, turns) && s in h.users && h.users[s].closed
    ensures s in Run(h, turns).users
    ensures var u, v := h.users[s], Run(h, turns).users[s];
            v.closed && v.log == u.log && v.out.delivered <= u.out.taken <= u.out.delivered + 1
  {
    hide Reachable, Run, Schedulable;
    forall t | t in h.users ensures OutOk(h.users[t]) { ReachableOut(h, t); }
    RunOut(h, turns);
    RunSilent(h, turns);
    assert OutOk(Run(h, turns).users[s]);
  }

  // ---- what is queued can be delivered ---------------------------------------------------------

  /** An open session's writer takes the next packet when there is one, and sleeps only if there is none. */
  lemma WriterGoesOn(h: Hub, s: Sid, e: Event, o: Oracle)
    requires s in h.users && !h.users[s].closed && OutOk(h.users[s])
    requires Enabled(h, e) && (e == WriterRuns(s) || e == Written(s, true))
    ensures var u, q := h.users[s], Step(h, e, o);
            && NobodyElse(h, s, q) && SameTables(h, q) && OutOk(q.users[s])
            && q.users[s] == u.(out := q.users[s].out)
            && q.users[s].out.delivered == u.out.delivered + (if e.Written? then 1 else 0)
            && q.users[s].out.writer == if q.users[s].out.delivered < |u.log| then GameModel.Writing else GameModel.Idle
  {
  }

  /** Turns of the writer of `s` alone, each write succeeding. */
  ghost predicate WritersTurns(s: Sid, turns: seq<Turn>) {
    forall i :: 0 <= i < |turns| ==> turns[i].0 == WriterRuns(s) || turns[i].0 == Written(s, true)
  }

  ghost predicate Delivers(h: Hub, s: Sid, turns: seq<Turn>)
    requires s in h.users
  {
    && Schedulable(h, turns) && WritersTurns(s, turns) && s in Run(h, turns).users
    && var v := Run(h, turns).users[s];
       v == h.users[s].(out := v.out) && v.out.delivered == |v.log| && v.out.writer.Idle?
  }

  lemma DeliversFirst(h: Hub, s: Sid, e: Event, o: Oracle, turns: seq<Turn>)
    requires s in h.users && Enabled(h, e) && Faithful(o) && (e == WriterRuns(s) || e == Written(s, true))
    requires s in Step(h, e, o).users && Step(h, e, o).users[s] == h.users[s].(out := Step(h, e, o).users[s].out)
    requires Delivers(Step(h, e, o), s, turns)
    ensures Delivers(h, s, [(e, o)] + turns)
  {
    hide Step, Enabled, Faithful;
    OneTurn(h, e, o, turns);
    var all := [(e, o)] + turns;
    forall i | 0 <= i < |all| ensures all[i].0 == WriterRuns(s) || all[i].0 == Written(s, true) {
      assert i > 0 ==> all[i] == turns[i - 1];
    }
    hide Run, Schedulable;
  }

  lemma {:induction false} WriterDelivers(h: Hub, s: Sid, o: Oracle) returns (turns: seq<Turn>)
    requires s in h.users && !h.users[s].closed && OutOk(h.users[s]) && Faithful(o)
    ensures Delivers(h, s, turns)
    decreases |h.users[s].log| - h.users[s].out.delivered, h.users[s].out.writer.Runnable?
  {
    if h.users[s].out.writer.Idle? {
      turns := [];
    } else {
      var e := if h.users[s].out.writer.Runnable? then WriterRuns(s) else Written(s, true);
      assert Enabled(h, e);
      WriterGoesOn(h, s, e, o);
      hide Step, Faithful, Delivers;
      var rest := WriterDelivers(Step(h, e, o), s, o);
      DeliversFirst(h, s, e, o, rest);
      turns := [(e, o)] + rest;
    }
  }

  /** From every reachable state the writer of an open session alone can bring all that is queued to its
      client, in order: nothing gets stuck. */
  lemma QueueCanBeDelivered(h: Hub, s: Sid)
    requires Reachable(h) && s in h.users && !h.users[s].closed
    ensures exists turns :: Delivers(h, s, turns)
  {
    hide Reachable, OutOk, Delivers;
    ReachableOut(h, s);
    var turns := WriterDelivers(h, s, Plain());
  }
}
