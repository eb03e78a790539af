/** Relay session identifiers: what the registry's string keys stand for. */
module SessionNames {
  import opened Bytes

  type Mac = m: Bytes | |m| == 6 witness ['\0', '\0', '\0', '\0', '\0', '\0']
  type Port = p: nat | p < 0x1_0000

  datatype Endpoint = Endpoint(mac: Mac, port: Port)

  /** `mode_` together with the endpoints that the mode uses. */
  datatype Name =
    | PdpName(src: Endpoint)
    | ListenName(src: Endpoint)
    | ConnectName(src: Endpoint, dst: Endpoint)
    | AcceptName(src: Endpoint, dst: Endpoint)

  /** `get_peer_identifier`: empty for PDP and LISTEN, the mirrored other side for CONNECT and ACCEPT. */
  function Peer(n: Name): Option<Name> {
    match n
    case PdpName(_) => None
    case ListenName(_) => None
    case ConnectName(s, d) => Some(AcceptName(d, s))
    case AcceptName(s, d) => Some(ConnectName(d, s))
  }

  predicate IsPtpPipe(n: Name) { n.ConnectName? || n.AcceptName? }

  lemma PeerIsInvolution(n: Name)
    requires IsPtpPipe(n)
    ensures Peer(n).Some? && Peer(n).value != n
    ensures Peer(n).value.ConnectName? <==> n.AcceptName?
    ensures Peer(n).value.src == n.dst && Peer(n).value.dst == n.src
    ensures Peer(Peer(n).value) == Some(n)
  {
  }

  // ---- the formatted names -------------------------------------------------------------------

  /** Two lower-case hex digits for each byte, colons between. */
  function HexText(b: Bytes): (r: Bytes)
    requires b != []
    ensures |r| == 3 * |b| - 1
  {
    if |b| == 1 then Hex2(b[0]) else Hex2(b[0]) + ":" + HexText(b[1..])
  }

  function MacText(m: Mac): (r: Bytes)
    ensures |r| == 17
  {
    HexText(m)
  }

  function EndpointText(e: Endpoint): Bytes {
    MacText(e.mac) + " " + Decimal(e.port)
  }

  function Prefix(n: Name): Bytes {
    match n
    case PdpName(_) => "PDP "
    case ListenName(_) => "PTP_LISTEN "
    case ConnectName(_, _) => "PTP_CONNECT "
    case AcceptName(_, _) => "PTP_ACCEPT "
  }

  function Body(n: Name): Bytes {
    if IsPtpPipe(n) then EndpointText(n.src) + " " + EndpointText(n.dst) else EndpointText(n.src)
  }

  /** `get_identifier` and the four `get_*_session_name` functions. */
  function Format(n: Name): Bytes { Prefix(n) + Body(n) }

  lemma {:induction false} HexTextInjective(a: Bytes, b: Bytes)
    requires |a| == |b| > 0 && HexText(a) == HexText(b)
    ensures a == b
  {
    assert HexText(a)[..2] == Hex2(a[0]) && HexText(b)[..2] == Hex2(b[0]);
    Hex2Injective(a[0], b[0]);
    if |a| > 1 {
      assert HexText(a)[3..] == HexText(a[1..]) && HexText(b)[3..] == HexText(b[1..]);
      HexTextInjective(a[1..], b[1..]);
      assert a == [a[0]] + a[1..] && b == [b[0]] + b[1..];
    }
  }

  lemma DecimalHasNoSpace(n: nat)
    ensures ' ' !in Decimal(n)
  {
    assert !IsDigit(' ');
  }

  lemma DecimalInjective(a: nat, b: nat)
    requires Decimal(a) == Decimal(b)
    ensures a == b
  {
    DecimalRoundTrip(a);
    DecimalRoundTrip(b);
  }

  /** An endpoint followed by a space is recognised, whatever comes after the space. */
  lemma EndpointThenSpace(a: Endpoint, b: Endpoint, x: Bytes, y: Bytes)
    requires EndpointText(a) + " " + x == EndpointText(b) + " " + y
    ensures a == b && x == y
  {
    var l, r := EndpointText(a) + " " + x, EndpointText(b) + " " + y;
    assert l[..17] == MacText(a.mac) && r[..17] == MacText(b.mac);
    HexTextInjective(a.mac, b.mac);
    assert l[18..] == Decimal(a.port) + [' '] + x;
    assert r[18..] == Decimal(b.port) + [' '] + y;
    DecimalHasNoSpace(a.port);
    DecimalHasNoSpace(b.port);
    SplitUnique(Decimal(a.port), Decimal(b.port), ' ', x, y);
    DecimalInjective(a.port, b.port);
  }

  lemma EndpointTextInjective(a: Endpoint, b: Endpoint)
    requires EndpointText(a) == EndpointText(b)
    ensures a == b
  {
    hide HexText, Decimal;
    EndpointThenSpace(a, b, [], []);
  }

  lemma PrefixFromText(a: Name, b: Name)
    requires Format(a) == Format(b)
    ensures Prefix(a) == Prefix(b)
  {
    assert Format(a)[1] == Prefix(a)[1] && Format(b)[1] == Prefix(b)[1];
    assert !a.PdpName? ==> Format(a)[4] == Prefix(a)[4];
    assert !b.PdpName? ==> Format(b)[4] == Prefix(b)[4];
  }

  /** The formatted identifier determines the mode and every endpoint the mode uses. */
  lemma FormatInjective(a: Name, b: Name)
    requires Format(a) == Format(b)
    ensures a == b
  {
    PrefixFromText(a, b);
    assert Body(a) == Format(a)[|Prefix(a)|..] && Body(b) == Format(b)[|Prefix(b)|..];
    if IsPtpPipe(a) {
      EndpointThenSpace(a.src, b.src, EndpointText(a.dst), EndpointText(b.dst));
      EndpointTextInjective(a.dst, b.dst);
    } else {
      EndpointTextInjective(a.src, b.src);
    }
  }
}
