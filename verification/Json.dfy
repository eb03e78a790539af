/** JSON text as bytes: a printer of values, a reader in the sense of RFC 8259, and their agreement.

The reader takes what sections 4 (objects), 5 (arrays), 6 (numbers, here natural ones) and 7 (strings)
describe, without white space. A byte outside ASCII stands for itself, as it does in the printer.
*/
module Json {
  import opened Bytes

  datatype Json = Str(text: Bytes) | Num(n: nat) | Arr(items: Items) | Obj(members: Members)
  datatype Items = NoItem | Item(head: Json, tail: Items)
  datatype Members = NoMember | Member(key: Bytes, value: Json, next: Members)

  // ---- printing ------------------------------------------------------------------------------

  /** `append_json_escaped` for one character. */
  function EscapeChar(c: Byte): (r: Bytes)
    ensures r != []
  {
    if c == '"' then ['\\', '"']
    else if c == '\\' then ['\\', '\\']
    else if c == 8 as char then ['\\', 'b']
    else if c == 12 as char then ['\\', 'f']
    else if c == '\n' then ['\\', 'n']
    else if c == '\r' then ['\\', 'r']
    else if c == '\t' then ['\\', 't']
    else if c as int < 0x20 then ['\\', 'u', '0', '0'] + Hex2(c)
    else [c]
  }

  function Escape(s: Bytes): Bytes {
    if s == [] then [] else EscapeChar(s[0]) + Escape(s[1..])
  }

  function Quote(s: Bytes): Bytes { ['"'] + Escape(s) + ['"'] }

  function Print(v: Json): (r: Bytes)
    ensures r != []
    decreases v
  {
    match v
    case Str(text) => Quote(text)
    case Num(n) => Decimal(n)
    case Arr(items) => ['['] + PrintItems(items) + [']']
    case Obj(members) => ['{'] + PrintMembers(members) + ['}']
  }

  function PrintItems(items: Items): Bytes
    decreases items
  {
    match items
    case NoItem => []
    case Item(head, tail) => Print(head) + PrintMoreItems(tail)
  }

  function PrintMoreItems(items: Items): Bytes
    decreases items
  {
    match items
    case NoItem => []
    case Item(head, tail) => [','] + Print(head) + PrintMoreItems(tail)
  }

  function PrintMembers(members: Members): Bytes
    decreases members
  {
    match members
    case NoMember => []
    case Member(key, value, next) => Quote(key) + [':'] + Print(value) + PrintMoreMembers(next)
  }

  function PrintMoreMembers(members: Members): Bytes
    decreases members
  {
    match members
    case NoMember => []
    case Member(key, value, next) => [','] + Quote(key) + [':'] + Print(value) + PrintMoreMembers(next)
  }

  // ---- reading -------------------------------------------------------------------------------

  /** One character of a string, and how many bytes it takes; None at its end or at a bad escape. */
  function ReadChar(b: Bytes): (r: Option<(Byte, nat)>)
    ensures r.Some? ==> 0 < r.value.1 <= |b|
  {
    if b == [] || b[0] == '"' || b[0] as int < 0x20 then None
    else if b[0] != '\\' then Some((b[0], 1))
    else if |b| < 2 then None
    else if b[1] == '"' || b[1] == '\\' || b[1] == '/' then Some((b[1], 2))
    else if b[1] == 'b' then Some((8 as char, 2))
    else if b[1] == 'f' then Some((12 as char, 2))
    else if b[1] == 'n' then Some(('\n', 2))
    else if b[1] == 'r' then Some(('\r', 2))
    else if b[1] == 't' then Some(('\t', 2))
    else if b[1] != 'u' || |b| < 6 then None
    else ReadHex(b[2], b[3], b[4], b[5])
  }

  /** The code point of a `\u` escape, if a byte can hold it. */
  function ReadHex(a: Byte, b: Byte, c: Byte, d: Byte): (r: Option<(Byte, nat)>)
    ensures r.Some? ==> r.value.1 == 6
  {
    if HexValue(a) != Some(0) || HexValue(b) != Some(0) then None
    else
      match (HexValue(c), HexValue(d))
      case (Some(x), Some(y)) => if x < 16 && y < 16 then Some(((16 * x + y) as char, 6)) else None
      case _ => None
  }

  /** What follows the opening quotation mark of a string, and the bytes behind the closing one. */
  function ReadString(b: Bytes): (r: Option<(Bytes, Bytes)>)
    ensures r.Some? ==> |r.value.1| < |b|
    decreases |b|
  {
    if b == [] then None
    else if b[0] == '"' then Some(([], b[1..]))
    else
      match ReadChar(b)
      case None => None
      case Some((c, size)) =>
        match ReadString(b[size..])
        case None => None
        case Some((text, rest)) => Some(([c] + text, rest))
  }

  function DigitsOf(b: Bytes): (r: Bytes)
    ensures r <= b && forall c :: c in r ==> IsDigit(c)
  {
    if b == [] || !IsDigit(b[0]) then [] else [b[0]] + DigitsOf(b[1..])
  }

  /** A natural number: no leading zeros. */
  function ReadNumber(b: Bytes): (r: Option<(nat, Bytes)>)
    ensures r.Some? ==> |r.value.1| < |b|
  {
    var digits := DigitsOf(b);
    if digits == [] || (digits[0] == '0' && |digits| > 1) then None
    else Some((DecimalValue(digits), b[|digits|..]))
  }

  function ReadValue(b: Bytes): (r: Option<(Json, Bytes)>)
    ensures r.Some? ==> |r.value.1| < |b|
    decreases |b|, 1
  {
    if b == [] then None
    else if b[0] == '"' then
      match ReadString(b[1..])
      case None => None
      case Some((text, rest)) => Some((Str(text), rest))
    else if b[0] == '[' then
      if |b| > 1 && b[1] == ']' then Some((Arr(NoItem), b[2..]))
      else
        match ReadItems(b[1..])
        case None => None
        case Some((items, rest)) => Some((Arr(items), rest))
    else if b[0] == '{' then
      if |b| > 1 && b[1] == '}' then Some((Obj(NoMember), b[2..]))
      else
        match ReadMembers(b[1..])
        case None => None
        case Some((members, rest)) => Some((Obj(members), rest))
    else
      match ReadNumber(b)
      case None => None
      case Some((n, rest)) => Some((Num(n), rest))
  }

  /** One item or more, up to the closing bracket. */
  function ReadItems(b: Bytes): (r: Option<(Items, Bytes)>)
    ensures r.Some? ==> |r.value.1| < |b|
    decreases |b|, 2
  {
    match ReadValue(b)
    case None => None
    case Some((head, rest)) =>
      if rest == [] then None
      else if rest[0] == ']' then Some((Item(head, NoItem), rest[1..]))
      else if rest[0] != ',' then None
      else
        match ReadItems(rest[1..])
        case None => None
        case Some((tail, end)) => Some((Item(head, tail), end))
  }

  /** One member or more, up to the closing brace. */
  function ReadMembers(b: Bytes): (r: Option<(Members, Bytes)>)
    ensures r.Some? ==> |r.value.1| < |b|
    decreases |b|, 2
  {
    if b == [] || b[0] != '"' then None
    else
      match ReadString(b[1..])
      case None => None
      case Some((key, colon)) =>
        if colon == [] || colon[0] != ':' then None
        else
          match ReadValue(colon[1..])
          case None => None
          case Some((value, rest)) =>
            if rest == [] then None
            else if rest[0] == '}' then Some((Member(key, value, NoMember), rest[1..]))
            else if rest[0] != ',' then None
            else
              match ReadMembers(rest[1..])
              case None => None
              case Some((next, end)) => Some((Member(key, value, next), end))
  }

  // ---- agreement -----------------------------------------------------------------------------

  lemma ReadEscapedChar(c: Byte, rest: Bytes)
    ensures ReadChar(EscapeChar(c) + rest) == Some((c, |EscapeChar(c)|))
    ensures (EscapeChar(c) + rest)[0] != '"'
    ensures (EscapeChar(c) + rest)[|EscapeChar(c)|..] == rest
  {
    HexDigitRoundTrip(c as int / 16);
    HexDigitRoundTrip(c as int % 16);
  }

  /** Unescaping undoes escaping, whatever the bytes, and finds the right closing quotation mark. */
  lemma {:induction false} StringRoundTrip(s: Bytes, rest: Bytes)
    ensures ReadString(Escape(s) + ['"'] + rest) == Some((s, rest))
  {
    if s == [] {
      assert Escape(s) + ['"'] + rest == ['"'] + rest;
    } else {
      var b := Escape(s) + ['"'] + rest;
      var behind := Escape(s[1..]) + ['"'] + rest;
      assert b == EscapeChar(s[0]) + behind;
      ReadEscapedChar(s[0], behind);
      StringRoundTrip(s[1..], rest);
      assert [s[0]] + s[1..] == s;
    }
  }

  ghost predicate NoDigitFirst(b: Bytes) { b == [] || !IsDigit(b[0]) }

  lemma {:induction false} DigitsOfDigits(d: Bytes, rest: Bytes)
    requires (forall c :: c in d ==> IsDigit(c)) && NoDigitFirst(rest)
    ensures DigitsOf(d + rest) == d
  {
    if d == [] {
      assert d + rest == rest;
    } else {
      assert (d + rest)[1..] == d[1..] + rest;
      assert d[0] in d;
      DigitsOfDigits(d[1..], rest);
    }
  }

  lemma {:induction false} NoLeadingZero(n: nat)
    ensures Decimal(n)[0] == '0' ==> n == 0 && |Decimal(n)| == 1
  {
    if n >= 10 { NoLeadingZero(n / 10); }
  }

  lemma NumberRoundTrip(n: nat, rest: Bytes)
    requires NoDigitFirst(rest)
    ensures ReadNumber(Decimal(n) + rest) == Some((n, rest))
  {
    DigitsOfDigits(Decimal(n), rest);
    NoLeadingZero(n);
    DecimalRoundTrip(n);
    assert (Decimal(n) + rest)[|Decimal(n)|..] == rest;
  }

  /** What a printed value begins with tells its kind. */
  lemma FirstByte(v: Json)
    ensures v.Str? ==> Print(v)[0] == '"'
    ensures v.Num? ==> IsDigit(Print(v)[0])
    ensures v.Arr? ==> Print(v)[0] == '['
    ensures v.Obj? ==> Print(v)[0] == '{'
  {
    if v.Num? { assert Decimal(v.n)[0] in Decimal(v.n); }
  }

  // The readers, one step at a time.

  lemma ReadLastItem(b: Bytes, head: Json, rest: Bytes)
    requires ReadValue(b) == Some((head, [']'] + rest))
    ensures ReadItems(b) == Some((Item(head, NoItem), rest))
  {
    hide ReadValue;
    assert ([']'] + rest)[1..] == rest;
  }

  lemma ReadNextItem(b: Bytes, head: Json, more: Bytes, tail: Items, rest: Bytes)
    requires ReadValue(b) == Some((head, [','] + more)) && ReadItems(more) == Some((tail, rest))
    ensures ReadItems(b) == Some((Item(head, tail), rest))
  {
    hide ReadValue;
    assert ([','] + more)[1..] == more;
  }

  lemma ReadLastMember(b: Bytes, key: Bytes, colon: Bytes, value: Json, rest: Bytes)
    requires ReadString(b) == Some((key, [':'] + colon)) && ReadValue(colon) == Some((value, ['}'] + rest))
    ensures ReadMembers(['"'] + b) == Some((Member(key, value, NoMember), rest))
  {
    hide ReadValue, ReadString;
    assert (['"'] + b)[1..] == b && ([':'] + colon)[1..] == colon && (['}'] + rest)[1..] == rest;
  }

  lemma ReadNextMember(b: Bytes, key: Bytes, colon: Bytes, value: Json, more: Bytes, next: Members, rest: Bytes)
    requires ReadString(b) == Some((key, [':'] + colon)) && ReadValue(colon) == Some((value, [','] + more))
    requires ReadMembers(more) == Some((next, rest))
    ensures ReadMembers(['"'] + b) == Some((Member(key, value, next), rest))
  {
    hide ReadValue, ReadString;
    assert (['"'] + b)[1..] == b && ([':'] + colon)[1..] == colon && ([','] + more)[1..] == more;
  }

  lemma ReadQuoted(b: Bytes, text: Bytes, rest: Bytes)
    requires ReadString(b) == Some((text, rest))
    ensures ReadValue(['"'] + b) == Some((Str(text), rest))
  {
    hide ReadString;
    assert (['"'] + b)[1..] == b;
  }

  lemma ReadBracketed(b: Bytes, items: Items, rest: Bytes)
    requires ReadItems(b) == Some((items, rest)) && b != [] && b[0] != ']'
    ensures ReadValue(['['] + b) == Some((Arr(items), rest))
  {
    hide ReadItems;
    assert (['['] + b)[1..] == b;
  }

  lemma ReadBraced(b: Bytes, members: Members, rest: Bytes)
    requires ReadMembers(b) == Some((members, rest)) && b != [] && b[0] != '}'
    ensures ReadValue(['{'] + b) == Some((Obj(members), rest))
  {
    hide ReadMembers;
    assert (['{'] + b)[1..] == b;
  }

  lemma ReadEmpty(rest: Bytes)
    ensures ReadValue(['[', ']'] + rest) == Some((Arr(NoItem), rest))
    ensures ReadValue(['{', '}'] + rest) == Some((Obj(NoMember), rest))
  {
    assert (['[', ']'] + rest)[2..] == rest && (['{', '}'] + rest)[2..] == rest;
  }

  lemma ReadDigits(b: Bytes, n: nat, rest: Bytes)
    requires b != [] && IsDigit(b[0]) && ReadNumber(b) == Some((n, rest))
    ensures ReadValue(b) == Some((Num(n), rest))
  {
    hide ReadNumber;
  }

  /** Reading what was printed gives the value back, and leaves what stood behind it. */
  lemma {:induction false} ValueRoundTrip(v: Json, rest: Bytes)
    requires NoDigitFirst(rest)
    ensures ReadValue(Print(v) + rest) == Some((v, rest))
    decreases v
  {
    hide ReadValue, ReadItems, ReadMembers, ReadString, ReadNumber, Escape, PrintItems, PrintMembers;
    FirstByte(v);
    match v
    case Str(text) =>
      StringRoundTrip(text, rest);
      ReadQuoted(Escape(text) + ['"'] + rest, text, rest);
      assert Print(v) + rest == ['"'] + (Escape(text) + ['"'] + rest);
    case Num(n) =>
      NumberRoundTrip(n, rest);
      ReadDigits(Print(v) + rest, n, rest);
    case Arr(items) => ArrayRoundTrip(items, rest);
    case Obj(members) => ObjectRoundTrip(members, rest);
  }

  lemma {:induction false} ArrayRoundTrip(items: Items, rest: Bytes)
    ensures ReadValue(Print(Arr(items)) + rest) == Some((Arr(items), rest))
    decreases items, 1
  {
    hide ReadValue, ReadItems, PrintMoreItems;
    if items.NoItem? {
      ReadEmpty(rest);
      assert Print(Arr(items)) + rest == ['[', ']'] + rest;
    } else {
      var inside := PrintItems(items) + [']'] + rest;
      ItemsRoundTrip(items, rest);
      FirstByte(items.head);
      assert inside[0] == Print(items.head)[0];
      ReadBracketed(inside, items, rest);
      assert Print(Arr(items)) + rest == ['['] + inside;
    }
  }

  lemma {:induction false} ObjectRoundTrip(members: Members, rest: Bytes)
    ensures ReadValue(Print(Obj(members)) + rest) == Some((Obj(members), rest))
    decreases members, 1
  {
    hide ReadValue, ReadMembers, PrintMoreMembers, Escape;
    if members.NoMember? {
      ReadEmpty(rest);
      assert Print(Obj(members)) + rest == ['{', '}'] + rest;
    } else {
      var inside := PrintMembers(members) + ['}'] + rest;
      MembersRoundTrip(members, rest);
      assert inside[0] == Quote(members.key)[0];
      ReadBraced(inside, members, rest);
      assert Print(Obj(members)) + rest == ['{'] + inside;
    }
  }

  lemma MoreItemsText(items: Items, rest: Bytes)
    ensures PrintMoreItems(items) + [']'] + rest
         == if items.NoItem? then [']'] + rest else [','] + (PrintItems(items) + [']'] + rest)
  {
    hide Print;
  }

  lemma {:induction false} ItemsRoundTrip(items: Items, rest: Bytes)
    requires items.Item?
    ensures ReadItems(PrintItems(items) + [']'] + rest) == Some((items, rest))
    decreases items, 0
  {
    hide ReadValue, ReadItems, Print, PrintMoreItems;
    var more := PrintMoreItems(items.tail) + [']'] + rest;
    var b := PrintItems(items) + [']'] + rest;
    MoreItemsText(items.tail, rest);
    assert b == Print(items.head) + more;
    ValueRoundTrip(items.head, more);
    if items.tail.NoItem? {
      ReadLastItem(b, items.head, rest);
    } else {
      var next := PrintItems(items.tail) + [']'] + rest;
      ItemsRoundTrip(items.tail, rest);
      ReadNextItem(b, items.head, next, items.tail, rest);
    }
  }

  lemma MoreMembersText(members: Members, rest: Bytes)
    ensures PrintMoreMembers(members) + ['}'] + rest
         == if members.NoMember? then ['}'] + rest else [','] + (PrintMembers(members) + ['}'] + rest)
  {
    hide Print, Quote;
  }

  lemma MembersText(members: Members, rest: Bytes)
    requires members.Member?
    ensures PrintMembers(members) + ['}'] + rest
         == ['"'] + (Escape(members.key) + ['"'] + ([':'] +
              (Print(members.value) + (PrintMoreMembers(members.next) + ['}'] + rest))))
  {
    hide Print, Escape, PrintMoreMembers;
  }

  lemma {:induction false} MembersRoundTrip(members: Members, rest: Bytes)
    requires members.Member?
    ensures ReadMembers(PrintMembers(members) + ['}'] + rest) == Some((members, rest))
    decreases members, 0
  {
    hide ReadValue, ReadMembers, ReadString, Print, PrintMembers, PrintMoreMembers, Escape;
    var more := PrintMoreMembers(members.next) + ['}'] + rest;
    var colon := Print(members.value) + more;
    var key := Escape(members.key) + ['"'] + ([':'] + colon);
    MembersText(members, rest);
    MoreMembersText(members.next, rest);
    StringRoundTrip(members.key, [':'] + colon);
    ValueRoundTrip(members.value, more);
    if members.next.NoMember? {
      ReadLastMember(key, members.key, colon, members.value, rest);
    } else {
      var next := PrintMembers(members.next) + ['}'] + rest;
      MembersRoundTrip(members.next, rest);
      ReadNextMember(key, members.key, colon, members.value, next, members.next, rest);
    }
  }
}
