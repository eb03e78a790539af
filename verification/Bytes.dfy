/** Raw bytes, fixed-width fields and the little conversions every other module needs.

A C++ `char` or `std::uint8_t` is a `Byte`: a Dafny `char` below 256. So `std::string`,
`std::string_view` and the packed character arrays are all `Bytes`.
*/
module Bytes {
  type Byte = c: char | c as int < 256 witness '\0'
  type Bytes = seq<Byte>

  datatype Option<+T> = None | Some(value: T) {
    function GetOr(default: T): T { if Some? then value else default }
  }

  /** The bytes before the first NUL, or all of them: what the string views over fixed arrays denote. */
  function UpToNul(data: Bytes): (r: Bytes)
    ensures r <= data
    ensures '\0' !in r
    ensures |r| < |data| ==> data[|r|] == '\0'
  {
    if data == [] || data[0] == '\0' then []
    else
      var rest := UpToNul(data[1..]);
      assert data == [data[0]] + data[1..];
      [data[0]] + rest
  }

  lemma {:induction false} UpToNulIsUnique(data: Bytes, n: nat)
    requires n <= |data|
    requires forall i :: 0 <= i < n ==> data[i] != '\0'
    requires n == |data| || data[n] == '\0'
    ensures UpToNul(data) == data[..n]
  {
    if n > 0 {
      UpToNulIsUnique(data[1..], n - 1);
      assert data[..n] == [data[0]] + data[1..][..n - 1];
    }
  }

  /** `bounded_strlen`: the loop behind every fixed-width to string-view conversion. */
  method BoundedStrlen(data: Bytes, max: nat) returns (len: nat)
    requires max <= |data|
    ensures len <= max
    ensures data[..len] == UpToNul(data[..max])
  {
    len := 0;
    while len != max && data[len] != '\0'
      invariant len <= max
      invariant forall i :: 0 <= i < len ==> data[i] != '\0'
      decreases max - len
    {
      len := len + 1;
    }
    UpToNulIsUnique(data[..max], len);
    assert data[..max][..len] == data[..len];
  }

  /** `data_from`: copy into a zeroed array of `width` bytes, cutting what does not fit. */
  function DataFrom(s: Bytes, width: nat): (r: Bytes)
    ensures |r| == width
  {
    if |s| >= width then s[..width] else s + seq(width - |s|, i => '\0')
  }

  /** Storing a NUL-free string in a field that is wide enough and reading it back gives the string; the rest of
      the field is zeros. */
  lemma FixedFieldRoundTrip(s: Bytes, width: nat)
    requires '\0' !in s && |s| <= width
    ensures UpToNul(DataFrom(s, width)) == s
    ensures forall i :: |s| <= i < width ==> DataFrom(s, width)[i] as int == 0
  {
    var f := DataFrom(s, width);
    forall i | 0 <= i < |s| ensures f[i] != '\0' {
      assert f[i] == s[i];
      assert s[i] in s;
    }
    UpToNulIsUnique(f, |s|);
    assert f[..|s|] == s;
  }

  // ---- unsigned little-endian integers -------------------------------------------------------

  function U16(n: nat): (r: Bytes)
    requires n < 0x1_0000
    ensures |r| == 2
  {
    [(n % 0x100) as char, (n / 0x100) as char]
  }

  function GetU16(b: Bytes): (n: nat)
    requires |b| == 2
    ensures n < 0x1_0000
  {
    b[0] as int + 0x100 * (b[1] as int)
  }

  function U32(n: nat): (r: Bytes)
    requires n < 0x1_0000_0000
    ensures |r| == 4
  {
    U16(n % 0x1_0000) + U16(n / 0x1_0000)
  }

  function GetU32(b: Bytes): (n: nat)
    requires |b| == 4
    ensures n < 0x1_0000_0000
  {
    GetU16(b[..2]) + 0x1_0000 * GetU16(b[2..])
  }

  /** An integer copied out of four wire bytes and copied back in leaves the bytes as they were. */
  lemma U32CopiesThrough(b: Bytes)
    requires |b| == 4
    ensures U32(GetU32(b)) == b
  {
    var lo, hi := GetU16(b[..2]), GetU16(b[2..]);
    var n := GetU32(b);
    assert n % 0x1_0000 == lo && n / 0x1_0000 == hi;
    assert U16(lo) == b[..2];
    assert U16(hi) == b[2..];
    assert b == b[..2] + b[2..];
  }

  lemma U32RoundTrip(n: nat)
    requires n < 0x1_0000_0000
    ensures GetU32(U32(n)) == n
  {
    var r := U32(n);
    assert r[..2] == U16(n % 0x1_0000) && r[2..] == U16(n / 0x1_0000);
  }

  // ---- decimal and hexadecimal text ----------------------------------------------------------

  function Digit(d: nat): (c: Byte)
    requires d < 10
    ensures '0' <= c <= '9'
    ensures c as int == '0' as int + d
  {
    ('0' as int + d) as char
  }

  predicate IsDigit(c: char) { '0' <= c <= '9' }

  /** `fmt`'s `{}` for an unsigned integer. */
  function Decimal(n: nat): (r: Bytes)
    ensures r != []
    ensures forall c :: c in r ==> IsDigit(c)
  {
    if n < 10 then [Digit(n)] else Decimal(n / 10) + [Digit(n % 10)]
  }

  function DecimalValue(s: string): nat
    requires forall c :: c in s ==> IsDigit(c)
  {
    if s == [] then 0
    else
      assert s[|s| - 1] in s && IsDigit(s[|s| - 1]);
      var head := s[..|s| - 1];
      assert forall c :: c in head ==> c in s;
      10 * DecimalValue(head) + (s[|s| - 1] as int - '0' as int)
  }

  lemma {:induction false} DecimalRoundTrip(n: nat)
    ensures DecimalValue(Decimal(n)) == n
  {
    if n >= 10 {
      DecimalRoundTrip(n / 10);
      assert Decimal(n)[..|Decimal(n)| - 1] == Decimal(n / 10);
    }
  }

  function HexDigit(d: nat): (c: Byte)
    requires d < 16
  {
    if d < 10 then ('0' as int + d) as char else ('a' as int + d - 10) as char
  }

  function HexValue(c: char): Option<nat> {
    if '0' <= c <= '9' then Some(c as int - '0' as int)
    else if 'a' <= c <= 'f' then Some(c as int - 'a' as int + 10)
    else None
  }

  lemma HexDigitRoundTrip(d: nat)
    requires d < 16
    ensures HexValue(HexDigit(d)) == Some(d)
  {
  }

  /** `{:02x}` for one byte. */
  function Hex2(c: Byte): (r: Bytes)
    ensures |r| == 2
  {
    [HexDigit(c as int / 16), HexDigit(c as int % 16)]
  }

  lemma Hex2Injective(a: Byte, b: Byte)
    requires Hex2(a) == Hex2(b)
    ensures a == b
  {
    HexDigitRoundTrip(a as int / 16);
    HexDigitRoundTrip(b as int / 16);
    HexDigitRoundTrip(a as int % 16);
    HexDigitRoundTrip(b as int % 16);
    assert Hex2(a)[0] == Hex2(b)[0] && Hex2(a)[1] == Hex2(b)[1];
  }

  /** Text cut at the first occurrence of a separator splits in one way only. */
  lemma {:induction false} SplitUnique<T>(a: seq<T>, b: seq<T>, sep: T, x: seq<T>, y: seq<T>)
    requires sep !in a && sep !in b
    requires a + [sep] + x == b + [sep] + y
    ensures a == b && x == y
  {
    var l, r := a + [sep] + x, b + [sep] + y;
    assert l[0] == r[0];
    assert a != [] ==> a[0] in a;
    assert b != [] ==> b[0] in b;
    if a != [] && b != [] {
      assert l[1..] == a[1..] + [sep] + x && r[1..] == b[1..] + [sep] + y;
      SplitUnique(a[1..], b[1..], sep, x, y);
    } else {
      assert a == b;
      assert l[1..] == x && r[1..] == y;
    }
  }
}
