/** The game protocol: commands that clients send, packets that the server sends, and their bytes. */
module Packets {
  import opened Bytes
  import opened SessionNames

  const SERVER_USER_MAXIMUM: nat := 1024
  const RX_SIZE: nat := 1024

  type RawGroup = b: Bytes | |b| == 8 witness seq(8, i => '\0')
  type RawCode = b: Bytes | |b| == 9 witness seq(9, i => '\0')
  type RawNick = b: Bytes | |b| == 128 witness seq(128, i => '\0')
  type RawChat = b: Bytes | |b| == 64 witness seq(64, i => '\0')
  type Ip = n: nat | n < 0x1_0000_0000

  datatype Command =
    | Ping
    | Login(mac: Mac, name: RawNick, code: RawCode)
    | Connect(group: RawGroup)
    | Disconnect
    | Scan
    | Chat(message: RawChat)

  datatype Packet =
    | ConnectPkt(name: RawNick, mac: Mac, ip: Ip)
    | DisconnectPkt(ip: Ip)
    | ScanPkt(group: RawGroup, mac: Mac)
    | ScanComplete
    | BssidPkt(mac: Mac)
    | ChatPkt(message: RawChat, name: RawNick)

  const OP_PING: Byte := '\0'
  const OP_LOGIN: Byte := 1 as char
  const OP_CONNECT: Byte := 2 as char
  const OP_DISCONNECT: Byte := 3 as char
  const OP_SCAN: Byte := 4 as char
  const OP_SCAN_COMPLETE: Byte := 5 as char
  const OP_BSSID: Byte := 6 as char
  const OP_CHAT: Byte := 7 as char

  // ---- validators ----------------------------------------------------------------------------

  predicate IsUpper(c: char) { 'A' <= c <= 'Z' }
  predicate IsLower(c: char) { 'a' <= c <= 'z' }

  predicate ValidCode(code: RawCode) {
    forall i :: 0 <= i < 9 ==> IsUpper(code[i]) || IsDigit(code[i])
  }

  /** Letters and digits up to the first NUL. */
  predicate ValidGroup(g: RawGroup) {
    forall c :: c in UpToNul(g) ==> IsUpper(c) || IsLower(c) || IsDigit(c)
  }

  predicate ValidLogin(mac: Mac, name: RawNick, code: RawCode) {
    && ValidCode(code)
    && mac != ['\U{FF}', '\U{FF}', '\U{FF}', '\U{FF}', '\U{FF}', '\U{FF}']
    && mac != ['\0', '\0', '\0', '\0', '\0', '\0']
    && name[0] != '\0'
  }

  /** The characters of a product code, by their numbers: capital letters and digits. */
  predicate CodeChar(c: char) { 65 <= c as int <= 90 || 48 <= c as int <= 57 }

  /** Those of a group name: small letters too. */
  predicate NameChar(c: char) { CodeChar(c) || 97 <= c as int <= 122 }

  /** `valid_product_code` */
  method CheckProductCode(code: RawCode) returns (ok: bool)
    ensures ok <==> ValidCode(code)
    ensures ok <==> forall i :: 0 <= i < 9 ==> CodeChar(code[i])
  {
    CodeSays(code);
    var i := 0;
    while i != 9
      invariant i <= 9 && forall j :: 0 <= j < i ==> IsUpper(code[j]) || IsDigit(code[j])
      decreases 9 - i
    {
      var c := code[i];
      if !(('A' <= c <= 'Z') || ('0' <= c <= '9')) {
        return false;
      }
      i := i + 1;
    }
    ok := true;
  }

  lemma CodeSays(code: RawCode)
    ensures ValidCode(code) <==> forall i :: 0 <= i < 9 ==> CodeChar(code[i])
  {
    if ValidCode(code) {
      forall i | 0 <= i < 9 ensures CodeChar(code[i]) { assert IsUpper(code[i]) || IsDigit(code[i]); }
    }
    if forall i :: 0 <= i < 9 ==> CodeChar(code[i]) {
      forall i | 0 <= i < 9 ensures IsUpper(code[i]) || IsDigit(code[i]) { assert CodeChar(code[i]); }
    }
  }

  /** No NUL stands before or at `i`. */
  predicate InName(g: Bytes, i: nat) { forall j :: 0 <= j <= i && j < |g| ==> g[j] as int != 0 }

  lemma GroupSays(g: RawGroup)
    ensures ValidGroup(g) <==> forall i :: 0 <= i < 8 && InName(g, i) ==> NameChar(g[i])
  {
    var k := UpToNul(g);
    if ValidGroup(g) {
      forall i | 0 <= i < 8 && InName(g, i) ensures NameChar(g[i]) {
        assert i < |k|;
        assert k[i] in k;
      }
    }
    if forall i :: 0 <= i < 8 && InName(g, i) ==> NameChar(g[i]) {
      forall c | c in k ensures IsUpper(c) || IsLower(c) || IsDigit(c) {
        var i :| 0 <= i < |k| && k[i] == c;
        assert forall j :: 0 <= j <= i ==> k[j] in k;
        assert InName(g, i);
      }
    }
  }

  /** `valid_group_name`: what stands behind a NUL does not matter. */
  method CheckGroupName(g: RawGroup) returns (ok: bool)
    ensures ok <==> ValidGroup(g)
    ensures ok <==> forall i :: 0 <= i < 8 && InName(g, i) ==> NameChar(g[i])
  {
    GroupSays(g);
    var i := 0;
    while i != 8
      invariant i <= 8
      invariant forall j :: 0 <= j < i ==> g[j] != '\0' && (IsUpper(g[j]) || IsLower(g[j]) || IsDigit(g[j]))
      decreases 8 - i
    {
      var c := g[i];
      if c == '\0' {
        break;
      }
      if !(('A' <= c <= 'Z') || ('a' <= c <= 'z') || ('0' <= c <= '9')) {
        BadCharacter(g, i);
        return false;
      }
      i := i + 1;
    }
    UpToNulIsUnique(g, i);
    ok := true;
  }

  /** A character that is not allowed counts if no NUL stands before it. */
  lemma BadCharacter(g: RawGroup, i: nat)
    requires i < 8 && forall j :: 0 <= j <= i ==> g[j] != '\0'
    requires !(IsUpper(g[i]) || IsLower(g[i]) || IsDigit(g[i]))
    ensures !ValidGroup(g)
  {
    var k := UpToNul(g);
    assert k[i] in k;
  }

  /** `valid_login_packet` */
  method CheckLogin(mac: Mac, name: RawNick, code: RawCode) returns (ok: bool)
    ensures ok <==> ValidLogin(mac, name, code)
    ensures ok <==> && (forall i :: 0 <= i < 9 ==> CodeChar(code[i]))
                    && (exists i :: 0 <= i < 6 && mac[i] as int != 255) && (exists i :: 0 <= i < 6 && mac[i] as int != 0)
                    && name[0] as int != 0
  {
    assert mac == ['\U{FF}', '\U{FF}', '\U{FF}', '\U{FF}', '\U{FF}', '\U{FF}']
           <==> forall i :: 0 <= i < 6 ==> mac[i] as int == 255;
    assert mac == ['\0', '\0', '\0', '\0', '\0', '\0'] <==> forall i :: 0 <= i < 6 ==> mac[i] as int == 0;
    ok := CheckProductCode(code);
    if !ok {
      return;
    }
    if mac == ['\U{FF}', '\U{FF}', '\U{FF}', '\U{FF}', '\U{FF}', '\U{FF}']
       || mac == ['\0', '\0', '\0', '\0', '\0', '\0']
    {
      return false;
    }
    ok := name[0] != '\0';
  }

  // ---- the reader's view of its buffer -------------------------------------------------------

  datatype Lexed = NeedMore | Malformed | Got(cmd: Command, size: nat)

  /** What the bytes at the front of the buffer are. Before login only a login packet will do. */
  function Lex(loggedIn: bool, rx: Bytes): (r: Lexed)
    requires rx != []
    ensures r.NeedMore? ==> |rx| < 144
    ensures r.Got? ==> 0 < r.size <= |rx|
  {
    var op := rx[0];
    if !loggedIn then
      if op != OP_LOGIN then Malformed
      else if |rx| < 144 then NeedMore
      else Got(Login(rx[1..7], rx[7..135], rx[135..144]), 144)
    else if op == OP_PING then Got(Ping, 1)
    else if op == OP_CONNECT then if |rx| < 9 then NeedMore else Got(Connect(rx[1..9]), 9)
    else if op == OP_DISCONNECT then Got(Disconnect, 1)
    else if op == OP_SCAN then Got(Scan, 1)
    else if op == OP_CHAT then if |rx| < 65 then NeedMore else Got(Chat(rx[1..65]), 65)
    else Malformed
  }

  /** More bytes behind a command do not change what the front of the buffer is. */
  lemma LexIsStable(loggedIn: bool, rx: Bytes, more: Bytes)
    requires rx != [] && !Lex(loggedIn, rx).NeedMore?
    ensures Lex(loggedIn, rx + more) == Lex(loggedIn, rx)
  {
    var all := rx + more;
    assert all[0] == rx[0];
    if |rx| >= 144 {
      assert all[1..7] == rx[1..7] && all[7..135] == rx[7..135] && all[135..144] == rx[135..144];
    }
    if |rx| >= 65 { assert all[1..65] == rx[1..65]; }
    if |rx| >= 9 { assert all[1..9] == rx[1..9]; }
  }

  // ---- the client's side of a command --------------------------------------------------------

  /** What a client sends for a command, with the protocol's bytes written out. */
  function EncodeCommand(c: Command): (r: Bytes)
    ensures r != []
  {
    match c
    case Ping => [0 as char]
    case Login(mac, name, code) => [1 as char] + mac + name + code
    case Connect(group) => [2 as char] + group
    case Disconnect => [3 as char]
    case Scan => [4 as char]
    case Chat(message) => [7 as char] + message
  }

  /** The bytes that a command may begin with: 1 before login; 0, 2, 3, 4 and 7 after it. */
  predicate Due(loggedIn: bool, op: Byte) {
    if loggedIn then op as int == 0 || 2 <= op as int <= 4 || op as int == 7 else op as int == 1
  }

  /** How long the command is that begins with `op`. */
  function LengthOf(op: Byte): nat {
    if op as int == 1 then 144 else if op as int == 2 then 9 else if op as int == 7 then 65 else 1
  }

  lemma LexLong(c: Command, rest: Bytes)
    requires c.Login?
    ensures Lex(false, EncodeCommand(c) + rest) == Got(c, 144) && |EncodeCommand(c)| == 144
  {
    var b := EncodeCommand(c) + rest;
    assert b[0] == 1 as char && b[1..7] == c.mac && b[7..135] == c.name && b[135..144] == c.code;
  }

  lemma LexShort(c: Command, rest: Bytes)
    requires !c.Login?
    ensures Lex(true, EncodeCommand(c) + rest) == Got(c, |EncodeCommand(c)|)
  {
    var b := EncodeCommand(c) + rest;
    if c.Connect? { assert b[1..9] == c.group; }
    if c.Chat? { assert b[1..65] == c.message; }
  }

  /** Every command is read as what it is, whatever follows it. */
  lemma LexEncode(c: Command, rest: Bytes)
    ensures Lex(!c.Login?, EncodeCommand(c) + rest) == Got(c, |EncodeCommand(c)|)
    ensures (EncodeCommand(c) + rest)[|EncodeCommand(c)|..] == rest
  {
    hide Lex, EncodeCommand;
    if c.Login? { LexLong(c, rest); } else { LexShort(c, rest); }
  }

  /** And nothing else is read as a command: a byte that is not due is malformed, and a command that
      is due is waited for until all of it is there. */
  lemma LexDecides(loggedIn: bool, rx: Bytes)
    requires rx != []
    ensures Lex(loggedIn, rx).Malformed? <==> !Due(loggedIn, rx[0])
    ensures Lex(loggedIn, rx).NeedMore? <==> Due(loggedIn, rx[0]) && |rx| < LengthOf(rx[0])
    ensures var l := Lex(loggedIn, rx);
            l.Got? ==> loggedIn == !l.cmd.Login? && rx[..l.size] == EncodeCommand(l.cmd)
  {
    assert rx[..1] == [rx[0]];
    if |rx| >= 144 { assert rx[..144] == [rx[0]] + rx[1..7] + rx[7..135] + rx[135..144]; }
    if |rx| >= 65 { assert rx[..65] == [rx[0]] + rx[1..65]; }
    if |rx| >= 9 { assert rx[..9] == [rx[0]] + rx[1..9]; }
  }

  // ---- packets as bytes ----------------------------------------------------------------------

  function Encode(p: Packet): (r: Bytes)
    ensures r != []
  {
    match p
    case ConnectPkt(name, mac, ip) => [OP_CONNECT] + name + mac + U32(ip)
    case DisconnectPkt(ip) => [OP_DISCONNECT] + U32(ip)
    case ScanPkt(group, mac) => [OP_SCAN] + group + mac
    case ScanComplete => [OP_SCAN_COMPLETE]
    case BssidPkt(mac) => [OP_BSSID] + mac
    case ChatPkt(message, name) => [OP_CHAT] + message + name
  }

  /** The client's reading of the first packet of a stream, with the protocol's bytes written out. */
  function Decode(b: Bytes): Option<(Packet, Bytes)> {
    if b == [] then None
    else
      var op := b[0] as int;
      if op == 2 && |b| >= 139 then
        Some((ConnectPkt(b[1..129], b[129..135], GetU32(b[135..139])), b[139..]))
      else if op == 3 && |b| >= 5 then Some((DisconnectPkt(GetU32(b[1..5])), b[5..]))
      else if op == 4 && |b| >= 15 then Some((ScanPkt(b[1..9], b[9..15]), b[15..]))
      else if op == 5 then Some((ScanComplete, b[1..]))
      else if op == 6 && |b| >= 7 then Some((BssidPkt(b[1..7]), b[7..]))
      else if op == 7 && |b| >= 193 then Some((ChatPkt(b[1..65], b[65..193]), b[193..]))
      else None
  }

  lemma DecodeConnect(name: RawNick, mac: Mac, ip: Ip, rest: Bytes)
    ensures Decode(Encode(ConnectPkt(name, mac, ip)) + rest) == Some((ConnectPkt(name, mac, ip), rest))
  {
    hide U32, GetU32;
    U32RoundTrip(ip);
    var b := [OP_CONNECT] + name + mac + U32(ip) + rest;
    assert b[1..129] == name && b[129..135] == mac && b[135..139] == U32(ip) && b[139..] == rest;
  }

  lemma DecodeDisconnect(ip: Ip, rest: Bytes)
    ensures Decode(Encode(DisconnectPkt(ip)) + rest) == Some((DisconnectPkt(ip), rest))
  {
    hide U32, GetU32;
    U32RoundTrip(ip);
    var b := [OP_DISCONNECT] + U32(ip) + rest;
    assert b[1..5] == U32(ip) && b[5..] == rest;
  }

  lemma DecodeScan(group: RawGroup, mac: Mac, rest: Bytes)
    ensures Decode(Encode(ScanPkt(group, mac)) + rest) == Some((ScanPkt(group, mac), rest))
  {
    var b := [OP_SCAN] + group + mac + rest;
    assert b[1..9] == group && b[9..15] == mac && b[15..] == rest;
  }

  lemma DecodeBssid(mac: Mac, rest: Bytes)
    ensures Decode(Encode(BssidPkt(mac)) + rest) == Some((BssidPkt(mac), rest))
  {
    var b := [OP_BSSID] + mac + rest;
    assert b[1..7] == mac && b[7..] == rest;
  }

  lemma DecodeChat(message: RawChat, name: RawNick, rest: Bytes)
    ensures Decode(Encode(ChatPkt(message, name)) + rest) == Some((ChatPkt(message, name), rest))
  {
    var b := [OP_CHAT] + message + name + rest;
    assert b[1..65] == message && b[65..193] == name && b[193..] == rest;
  }

  lemma DecodeEncode(p: Packet, rest: Bytes)
    ensures Decode(Encode(p) + rest) == Some((p, rest))
  {
    match p
    case ConnectPkt(name, mac, ip) => DecodeConnect(name, mac, ip, rest);
    case DisconnectPkt(ip) => DecodeDisconnect(ip, rest);
    case ScanPkt(group, mac) => DecodeScan(group, mac, rest);
    case ScanComplete => assert (Encode(p) + rest)[1..] == rest;
    case BssidPkt(mac) => DecodeBssid(mac, rest);
    case ChatPkt(message, name) => DecodeChat(message, name, rest);
  }

  function EncodeAll(ps: seq<Packet>): Bytes {
    if ps == [] then [] else Encode(ps[0]) + EncodeAll(ps[1..])
  }

  lemma {:induction false} EncodeAllAppend(ps: seq<Packet>, p: Packet)
    ensures EncodeAll(ps + [p]) == EncodeAll(ps) + Encode(p)
  {
    hide Encode;
    if ps == [] {
      assert Encode(p) + [] == [] + Encode(p);
    } else {
      assert (ps + [p])[1..] == ps[1..] + [p];
      EncodeAllAppend(ps[1..], p);
    }
  }

  /** The client's reading of a whole stream: every complete packet in it. */
  function DecodeAll(b: Bytes): seq<Packet>
    decreases |b|
  {
    match Decode(b)
    case None => []
    case Some((p, rest)) => if |rest| < |b| then [p] + DecodeAll(rest) else []
  }

  /** Packets need no framing: from the bytes the client recovers exactly the packets that were queued. */
  lemma {:induction false} StreamRoundTrip(ps: seq<Packet>)
    ensures DecodeAll(EncodeAll(ps)) == ps
  {
    if ps != [] {
      var rest := EncodeAll(ps[1..]);
      DecodeEncode(ps[0], rest);
      StreamRoundTrip(ps[1..]);
      assert |rest| < |Encode(ps[0]) + rest|;
    }
  }
}
