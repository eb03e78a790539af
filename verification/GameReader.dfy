/** The streaming reader refines a pure parse of the client's bytes.

What a client's bytes are worth, command by command, depends on nothing but those bytes: not on how
reads cut them, not on what anybody else does.
*/
module GameReader {
  import opened Bytes
  import opened SessionNames
  import opened Packets
  import opened GameModel

  // ---- the pure parse ------------------------------------------------------------------------

  /** All that a session's own history decides: whether it has a game and whether it is in a group. */
  datatype Phase = Phase(playing: bool, grouped: bool)

  const START: Phase := Phase(false, false)

  /** What an accepted command leads to. */
  function Accept(p: Phase, c: Command): Option<Phase> {
    match c
    case Ping => Some(p)
    case Login(mac, name, code) => if !p.playing && ValidLogin(mac, name, code) then Some(p.(playing := true)) else None
    case Connect(group) => if p.playing && !p.grouped && ValidGroup(group) then Some(p.(grouped := true)) else None
    case Disconnect => if p.playing && p.grouped then Some(p.(grouped := false)) else None
    case Scan => if p.playing && !p.grouped then Some(p) else None
    case Chat(_) => if p.playing && p.grouped then Some(p) else None
  }

  /** `dead` is the decision to close; `rest` is the beginning of a command not all of which is there. */
  datatype Outcome = Outcome(commands: seq<Command>, dead: bool, phase: Phase, rest: Bytes)

  function After(c: Command, o: Outcome): Outcome { o.(commands := [c] + o.commands) }

  function Parse(p: Phase, b: Bytes): (o: Outcome)
    ensures !o.dead ==> |o.rest| < 144
    decreases |b|
  {
    if b == [] then Outcome([], false, p, [])
    else
      match Lex(p.playing, b)
      case NeedMore => Outcome([], false, p, b)
      case Malformed => Outcome([], true, p, [])
      case Got(c, size) =>
        match Accept(p, c)
        case None => Outcome([], true, p, [])
        case Some(q) => After(c, Parse(q, b[size..]))
  }

  /** The parse of more bytes takes up where the parse of the first ones stopped. */
  function Resume(o: Outcome, more: Bytes): Outcome {
    if o.dead then o
    else
      var next := Parse(o.phase, o.rest + more);
      next.(commands := o.commands + next.commands)
  }

  lemma ParseGot(p: Phase, b: Bytes, more: Bytes)
    requires b != [] && Lex(p.playing, b).Got?
    ensures var l := Lex(p.playing, b);
            Parse(p, b + more) ==
            match Accept(p, l.cmd)
            case None => Outcome([], true, p, [])
            case Some(q) => After(l.cmd, Parse(q, b[l.size..] + more))
  {
    LexIsStable(p.playing, b, more);
    var size := Lex(p.playing, b).size;
    assert (b + more)[size..] == b[size..] + more;
  }

  lemma {:induction false} ParseAppend(p: Phase, b: Bytes, more: Bytes)
    ensures Parse(p, b + more) == Resume(Parse(p, b), more)
    decreases |b|
  {
    var o := Parse(p, b);
    if b == [] {
      assert b + more == more;
      Recommand(Parse(p, more));
    } else {
      match Lex(p.playing, b)
      case NeedMore => Recommand(Parse(p, b + more));
      case Malformed => LexIsStable(p.playing, b, more);
      case Got(c, size) =>
        ParseGot(p, b, more);
        assert b + [] == b;
        match Accept(p, c) {
          case None =>
          case Some(q) =>
            ParseAppend(q, b[size..], more);
            ResumeAfter(c, Parse(q, b[size..]), more);
        }
    }
  }

  lemma Recommand(o: Outcome)
    ensures o.(commands := [] + o.commands) == o
  {
    assert [] + o.commands == o.commands;
  }

  lemma ResumeAfter(c: Command, o: Outcome, more: Bytes)
    ensures Resume(After(c, o), more) == After(c, Resume(o, more))
  {
    hide Parse;
    if !o.dead {
      var next := Parse(o.phase, o.rest + more);
      assert ([c] + o.commands) + next.commands == [c] + (o.commands + next.commands);
    }
  }

  /** However a stream is cut into pieces, reading the pieces in turn is reading the whole. */
  function ParsePieces(o: Outcome, pieces: seq<Bytes>): Outcome
    decreases |pieces|
  {
    if pieces == [] then o else ParsePieces(Resume(o, pieces[0]), pieces[1..])
  }

  function Whole(pieces: seq<Bytes>): Bytes {
    if pieces == [] then [] else pieces[0] + Whole(pieces[1..])
  }

  lemma {:induction false} ChunkingDoesNotMatter(b: Bytes, pieces: seq<Bytes>)
    ensures ParsePieces(Parse(START, b), pieces) == Parse(START, b + Whole(pieces))
    decreases |pieces|
  {
    hide Parse, Resume;
    if pieces == [] {
      assert b + Whole(pieces) == b;
    } else {
      ParseAppend(START, b, pieces[0]);
      ChunkingDoesNotMatter(b + pieces[0], pieces[1..]);
      assert (b + pieces[0]) + Whole(pieces[1..]) == b + Whole(pieces);
    }
  }

  /** More bytes never take a command back. */
  lemma CommandsGrow(b: Bytes, more: Bytes)
    ensures Parse(START, b).commands <= Parse(START, b + more).commands
  {
    ParseAppend(START, b, more);
  }

  // ---- which lists of commands are taken -----------------------------------------------------

  function EncodeCommands(cs: seq<Command>): Bytes {
    if cs == [] then [] else EncodeCommand(cs[0]) + EncodeCommands(cs[1..])
  }

  /** The phase after all of `cs`, if the reader takes them; before login it takes nothing else. */
  function AcceptAll(p: Phase, cs: seq<Command>): Option<Phase>
    decreases |cs|
  {
    if cs == [] then Some(p)
    else if cs[0].Login? == p.playing then None
    else
      match Accept(p, cs[0])
      case None => None
      case Some(q) => AcceptAll(q, cs[1..])
  }

  /** `done` are the commands of `cs` before the first that is not taken. */
  ghost predicate StopsAfter(p: Phase, cs: seq<Command>, done: seq<Command>) {
    && |done| < |cs| && done == cs[..|done|]
    && AcceptAll(p, done).Some? && AcceptAll(p, cs[..|done| + 1]).None?
  }

  lemma ParseFirst(p: Phase, c: Command, rest: Bytes)
    ensures var o := Parse(p, EncodeCommand(c) + rest);
            if c.Login? == p.playing || Accept(p, c).None? then o == Outcome([], true, p, [])
            else o == After(c, Parse(Accept(p, c).value, rest))
  {
    hide Lex, Accept, EncodeCommand;
    LexEncode(c, rest);
    if c.Login? == p.playing {
      LexOutOfTurn(p.playing, c, rest);
    }
  }

  /** A login after login, or anything else before it, begins with a byte that is not due. */
  lemma LexOutOfTurn(loggedIn: bool, c: Command, rest: Bytes)
    requires c.Login? == loggedIn
    ensures Lex(loggedIn, EncodeCommand(c) + rest).Malformed?
  {
    assert (EncodeCommand(c) + rest)[0] == EncodeCommand(c)[0];
  }

  /** What a client sends for a list of commands is read as that list if every command is in its turn;
      otherwise as the commands before the first that is not, and then the session is closed. */
  lemma {:induction false} ParseEncoded(p: Phase, cs: seq<Command>, rest: Bytes)
    ensures AcceptAll(p, cs).Some? ==>
              var o := Parse(AcceptAll(p, cs).value, rest);
              Parse(p, EncodeCommands(cs) + rest) == o.(commands := cs + o.commands)
    ensures AcceptAll(p, cs).None? ==>
              var o := Parse(p, EncodeCommands(cs) + rest);
              o.dead && StopsAfter(p, cs, o.commands)
    decreases |cs|
  {
    hide EncodeCommand, Accept, Parse;
    if cs == [] {
      assert EncodeCommands(cs) + rest == rest;
      Recommand(Parse(p, rest));
    } else {
      var c, tail := cs[0], cs[1..];
      assert EncodeCommands(cs) + rest == EncodeCommand(c) + (EncodeCommands(tail) + rest);
      ParseFirst(p, c, EncodeCommands(tail) + rest);
      if c.Login? != p.playing && Accept(p, c).Some? {
        var q := Accept(p, c).value;
        ParseEncoded(q, tail, rest);
        if AcceptAll(p, cs).Some? {
          var o := Parse(AcceptAll(p, cs).value, rest);
          assert [c] + (tail + o.commands) == cs + o.commands;
        } else {
          assert [c] + tail == cs;
          StopsLater(p, c, q, tail, Parse(q, EncodeCommands(tail) + rest).commands);
        }
      } else {
        assert cs[..1] == [c];
      }
    }
  }

  lemma StopsLater(p: Phase, c: Command, q: Phase, tail: seq<Command>, done: seq<Command>)
    requires c.Login? != p.playing && Accept(p, c) == Some(q) && StopsAfter(q, tail, done)
    ensures StopsAfter(p, [c] + tail, [c] + done)
  {
    hide Accept;
    var cs := [c] + tail;
    assert cs[..|done| + 1] == [c] + tail[..|done|];
    assert cs[..|done| + 2] == [c] + tail[..|done| + 1];
    assert ([c] + done)[1..] == done;
    assert ([c] + tail[..|done| + 1])[1..] == tail[..|done| + 1];
  }

  // ---- the same, counted ---------------------------------------------------------------------

  function TimesJoined(cs: seq<Command>): nat {
    if cs == [] then 0 else TimesJoined(cs[..|cs| - 1]) + if cs[|cs| - 1].Connect? then 1 else 0
  }

  function TimesLeft(cs: seq<Command>): nat {
    if cs == [] then 0 else TimesLeft(cs[..|cs| - 1]) + if cs[|cs| - 1].Disconnect? then 1 else 0
  }

  /** The rules of the protocol for one command: the first command, and no other, is a valid login; a
      client joins and scans when it has left as often as it joined, and it leaves and chats otherwise. */
  predicate InTurn(before: seq<Command>, c: Command) {
    if before == [] then c.Login? && ValidLogin(c.mac, c.name, c.code)
    else if c.Connect? then TimesJoined(before) == TimesLeft(before) && ValidGroup(c.group)
    else if c.Scan? then TimesJoined(before) == TimesLeft(before)
    else if c.Disconnect? || c.Chat? then TimesJoined(before) == TimesLeft(before) + 1
    else c.Ping?
  }

  predicate Orderly(cs: seq<Command>) { forall i :: 0 <= i < |cs| ==> InTurn(cs[..i], cs[i]) }

  lemma {:induction false} AcceptAllAppend(p: Phase, cs: seq<Command>, c: Command)
    ensures AcceptAll(p, cs + [c])
         == match AcceptAll(p, cs) case None => None case Some(q) => AcceptAll(q, [c])
    decreases |cs|
  {
    hide Accept;
    if cs == [] {
      assert [] + [c] == [c];
    } else {
      assert (cs + [c])[1..] == cs[1..] + [c];
      if cs[0].Login? != p.playing && Accept(p, cs[0]).Some? {
        AcceptAllAppend(Accept(p, cs[0]).value, cs[1..], c);
      }
    }
  }

  lemma OrderlyAppend(cs: seq<Command>, c: Command)
    ensures Orderly(cs + [c]) <==> Orderly(cs) && InTurn(cs, c)
  {
    hide InTurn;
    var more := cs + [c];
    assert more[..|cs|] == cs && more[|cs|] == c;
    forall i | 0 <= i < |cs| ensures more[..i] == cs[..i] && more[i] == cs[i] {}
    if Orderly(more) {
      forall i | 0 <= i < |cs| ensures InTurn(cs[..i], cs[i]) {
        assert InTurn(more[..i], more[i]);
      }
      assert InTurn(more[..|cs|], more[|cs|]);
    }
  }

  /** What the counts say of the phase. */
  ghost predicate Tells(cs: seq<Command>, p: Phase) {
    && p == Phase(cs != [], TimesJoined(cs) == TimesLeft(cs) + 1)
    && TimesLeft(cs) <= TimesJoined(cs) <= TimesLeft(cs) + 1
  }

  lemma CountsAppend(cs: seq<Command>, c: Command)
    ensures TimesJoined(cs + [c]) == TimesJoined(cs) + if c.Connect? then 1 else 0
    ensures TimesLeft(cs + [c]) == TimesLeft(cs) + if c.Disconnect? then 1 else 0
    ensures TimesJoined([]) == TimesLeft([]) == 0
  {
    assert (cs + [c])[..|cs|] == cs;
  }

  lemma TurnIsAccepted(cs: seq<Command>, p: Phase, c: Command)
    requires Tells(cs, p)
    ensures InTurn(cs, c) <==> AcceptAll(p, [c]).Some?
    ensures InTurn(cs, c) ==> Tells(cs + [c], AcceptAll(p, [c]).value)
  {
    CountsAppend(cs, c);
    assert [c][1..] == [];
    hide ValidLogin, ValidGroup, TimesJoined, TimesLeft;
  }

  /** A list of commands is taken if and only if each is in its turn; then the session plays if there
      was a command at all, and is in a group if it has joined once more than it has left. */
  lemma {:induction false} OrderlyIsAccepted(cs: seq<Command>)
    ensures Orderly(cs) <==> AcceptAll(START, cs).Some?
    ensures Orderly(cs) ==> Tells(cs, AcceptAll(START, cs).value)
  {
    if cs == [] {
    } else {
      hide *;
      var n := |cs| - 1;
      var init, c := cs[..n], cs[n];
      assert cs == init + [c];
      OrderlyIsAccepted(init);
      OrderlyAppend(init, c);
      AcceptAllAppend(START, init, c);
      if Orderly(init) {
        TurnIsAccepted(init, AcceptAll(START, init).value, c);
      }
    }
  }

  // ---- handlers accept what the parse accepts ------------------------------------------------

  function PhaseOf(u: User): Phase { Phase(u.game.Some?, u.group.Some?) }

  ghost predicate Agrees(h: Hub, s: Sid, c: Command, r: (Hub, bool))
    requires s in h.users
  {
    && (Accept(PhaseOf(h.users[s]), c).None? ==> r == (h, false))
    && (Accept(PhaseOf(h.users[s]), c).Some? ==>
          && r.1 && s in r.0.users
          && PhaseOf(r.0.users[s]) == Accept(PhaseOf(h.users[s]), c).value
          && r.0.users[s].reaped == h.users[s].reaped
          && r.0.connections == h.connections)
  }

  lemma LoginAgrees(h: Hub, s: Sid, mac: Mac, name: RawNick, code: RawCode, o: Oracle)
    requires s in h.users
    ensures Agrees(h, s, Login(mac, name, code), HandleLogin(h, s, mac, name, code, o))
  {
    hide WorksFor, ValidLogin;
  }

  lemma ConnectAgrees(h: Hub, s: Sid, raw: RawGroup)
    requires s in h.users
    ensures Agrees(h, s, Connect(raw), HandleConnect(h, s, raw))
  {
    hide WorksFor, ValidGroup, Introduce;
  }

  lemma DisconnectAgrees(h: Hub, s: Sid)
    requires s in h.users
    ensures Agrees(h, s, Disconnect, HandleDisconnect(h, s))
  {
    hide LeaveGroup, OnlySentTo;
  }

  lemma ScanAgrees(h: Hub, s: Sid, o: Oracle)
    requires s in h.users
    ensures Agrees(h, s, Scan, HandleScan(h, s, o))
  {
    hide WorksFor, ScanPackets;
  }

  lemma ChatAgrees(h: Hub, s: Sid, message: RawChat)
    requires s in h.users
    ensures Agrees(h, s, Chat(message), HandleChat(h, s, message))
  {
    hide WorksFor, DeliverAll;
  }

  lemma DispatchAgrees(h: Hub, s: Sid, c: Command, o: Oracle)
    requires s in h.users
    ensures Agrees(h, s, c, Dispatch(h, s, c, o))
  {
    hide WorksFor, HandleLogin, HandleConnect, HandleDisconnect, HandleScan, HandleChat;
    match c
    case Ping => hide Agrees; PingAgrees(h, s);
    case Login(mac, name, code) => hide Agrees; LoginAgrees(h, s, mac, name, code, o);
    case Connect(group) => hide Agrees; ConnectAgrees(h, s, group);
    case Disconnect => hide Agrees; DisconnectAgrees(h, s);
    case Scan => hide Agrees; ScanAgrees(h, s, o);
    case Chat(message) => hide Agrees; ChatAgrees(h, s, message);
  }

  lemma PingAgrees(h: Hub, s: Sid)
    requires s in h.users
    ensures Agrees(h, s, Ping, (h, true))
  {
  }

  // ---- the reader's loops --------------------------------------------------------------------

  /** What one activation may change, seen from outside: `s` by itself, everybody else by packets. */
  ghost predicate Confined(h: Hub, s: Sid, r: Hub) {
    && s in h.users && r.users.Keys == h.users.Keys && r.connections == h.connections
    && (forall t :: t in h.users && t != s ==> OnlySentTo(h.users[t], r.users[t]))
    && SameIntake(h.users[s], r.users[s]) && r.users[s].reaped == h.users[s].reaped
  }

  lemma ConfinedTrans(h: Hub, s: Sid, q: Hub, r: Hub)
    requires Confined(h, s, q) && Confined(q, s, r)
    ensures Confined(h, s, r)
  {
    forall t | t in h.users && t != s ensures OnlySentTo(h.users[t], r.users[t]) {
      SentTrans(h.users[t], q.users[t], r.users[t]);
    }
  }

  /** One command of the reader against one step of the parse. */
  lemma ObeyAgrees(h: Hub, s: Sid, c: Command, size: nat, o: Oracle)
    requires s in h.users && size <= |h.users[s].rx| && !h.users[s].closed
    ensures var u := h.users[s]; var (r, ok) := Obey(h, s, c, size, o);
            && Confined(h, s, r)
            && ok == Accept(PhaseOf(u), c).Some?
            && r.users[s].closed == !ok
            && r.users[s].commands == (if ok then u.commands + [c] else u.commands)
            && r.users[s].rx == u.rx[size..]
            && (ok ==> PhaseOf(r.users[s]) == Accept(PhaseOf(u), c).value)
  {
    var eaten := PutUser(h, s, Eaten(h.users[s], size)).(clock := h.clock + 1);
    DispatchAgrees(eaten, s, c, o);
    EatenIs(h.users[s], size);
    ObeyIs(h, s, c, size, o);
    var (r, ok) := Dispatch(eaten, s, c, o);
    DispatchSpares(eaten, s, c, o);
    hide Dispatch, Obey, Accept, OnlySentTo, Posted, WorksFor, Eaten, SameIntake, Woken;
    assert !ok ==> r == eaten;
  }

  lemma DispatchSpares(h: Hub, s: Sid, c: Command, o: Oracle)
    requires s in h.users
    ensures var r := Dispatch(h, s, c, o).0;
            && r.users.Keys == h.users.Keys
            && (forall t :: t in h.users && t != s ==> OnlySentTo(h.users[t], r.users[t]))
            && r.users[s].rx == h.users[s].rx && r.users[s].commands == h.users[s].commands
            && r.users[s].closed == h.users[s].closed && SameIntake(h.users[s], r.users[s])
  {
    hide Dispatch, OnlySentTo, Posted;
  }

  lemma ObeyIs(h: Hub, s: Sid, c: Command, size: nat, o: Oracle)
    requires s in h.users && size <= |h.users[s].rx|
    ensures var d := Dispatch(PutUser(h, s, Eaten(h.users[s], size)).(clock := h.clock + 1), s, c, o);
            && s in d.0.users
            && Obey(h, s, c, size, o) ==
               if d.1 then (PutUser(d.0, s, d.0.users[s].(commands := d.0.users[s].commands + [c])), true)
               else (Shut(d.0, s), false)
  {
    hide Dispatch, OnlySentTo, Posted, ClosedUser, Eaten;
  }

  lemma EatenIs(u: User, size: nat)
    requires size <= |u.rx|
    ensures Eaten(u, size) == u.(rx := u.rx[size..])
  {
  }

  /** Where an activation stands against the parse of what is in the buffer. */
  ghost predicate Reads(u: User, v: User, o: Outcome) {
    && v.commands == u.commands + o.commands
    && v.closed == o.dead
    && (!o.dead ==> v.rx == o.rest && PhaseOf(v) == o.phase)
  }

  lemma {:induction false} DrainParses(h: Hub, s: Sid, o: Oracle)
    requires s in h.users && !h.users[s].closed
    ensures Confined(h, s, Drain(h, s, o))
    ensures Reads(h.users[s], Drain(h, s, o).users[s], Parse(PhaseOf(h.users[s]), h.users[s].rx))
    decreases |h.users[s].rx|
  {
    var u := h.users[s];
    if u.rx == [] {
      assert u.commands + [] == u.commands;
    } else {
      hide Obey, Accept;
      match Lex(u.game.Some?, u.rx)
      case NeedMore => assert u.commands + [] == u.commands;
      case Malformed => assert u.commands + [] == u.commands;
      case Got(c, size) =>
        ObeyAgrees(h, s, c, size, o);
        var (r, ok) := Obey(h, s, c, size, o);
        if ok {
          DrainParses(r, s, o);
          ConfinedTrans(h, s, r, Drain(r, s, o));
          DrainStep(h, s, c, size, o);
        } else {
          assert u.commands + [] == u.commands;
        }
    }
  }

  lemma DrainStep(h: Hub, s: Sid, c: Command, size: nat, o: Oracle)
    requires s in h.users && !h.users[s].closed && h.users[s].rx != []
    requires Lex(h.users[s].game.Some?, h.users[s].rx) == Got(c, size)
    requires Accept(PhaseOf(h.users[s]), c).Some?
    requires var (r, ok) := Obey(h, s, c, size, o);
             ok && r.users[s].commands == h.users[s].commands + [c]
             && Reads(r.users[s], Drain(r, s, o).users[s],
                      Parse(Accept(PhaseOf(h.users[s]), c).value, h.users[s].rx[size..]))
    ensures Reads(h.users[s], Drain(h, s, o).users[s], Parse(PhaseOf(h.users[s]), h.users[s].rx))
  {
    hide *;
    var u, r := h.users[s], Obey(h, s, c, size, o).0;
    DrainUnfolds(h, s, o);
    SamePhase(u);
    ParseGoesOn(PhaseOf(u), u.rx, c, size);
    ReadsLonger(u, r.users[s], Drain(r, s, o).users[s], c, Parse(Accept(PhaseOf(u), c).value, u.rx[size..]));
  }

  lemma ReadsLonger(u: User, u': User, v: User, c: Command, o: Outcome)
    requires Reads(u', v, o) && u'.commands == u.commands + [c]
    ensures Reads(u, v, After(c, o))
  {
    assert u.commands + ([c] + o.commands) == (u.commands + [c]) + o.commands;
  }

  lemma SamePhase(u: User)
    ensures PhaseOf(u).playing == u.game.Some?
  {
  }

  /** One turn of the inner loop. */
  lemma DrainUnfolds(h: Hub, s: Sid, o: Oracle)
    requires s in h.users && h.users[s].rx != [] && !h.users[s].closed
    ensures var l := Lex(h.users[s].game.Some?, h.users[s].rx);
            && (l.NeedMore? ==> Drain(h, s, o) == h)
            && (l.Malformed? ==> Drain(h, s, o) == Shut(h, s))
            && (l.Got? ==> var (r, ok) := Obey(h, s, l.cmd, l.size, o);
                           Drain(h, s, o) == if ok then Drain(r, s, o) else r)
  {
    hide Obey, Lex;
  }

  lemma ParseGoesOn(p: Phase, b: Bytes, c: Command, size: nat)
    requires b != [] && Lex(p.playing, b) == Got(c, size) && Accept(p, c).Some?
    ensures Parse(p, b) == After(c, Parse(Accept(p, c).value, b[size..]))
  {
    hide Lex, Accept;
  }
}
