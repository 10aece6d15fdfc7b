/** Bytes, UTF-8 encoding of Rust strings, and hexadecimal digits. */
module Bytes {

  newtype byte = x: int | 0 <= x < 256

  /** The UTF-8 encoding of one Unicode scalar value (RFC 3629, section 3). */
  function Utf8Char(c: char): (bs: seq<byte>)
    ensures 1 <= |bs| <= 4
    ensures (|bs| == 1) <==> (c as int < 0x80)
    ensures |bs| == 1 ==> bs[0] as int == c as int
    ensures |bs| > 1 ==> forall i :: 0 <= i < |bs| ==> bs[i] >= 0x80
  {
    var cp := c as int;
    if cp < 0x80 then [cp as byte]
    else if cp < 0x800 then [(0xC0 + cp / 64) as byte, (0x80 + cp % 64) as byte]
    else if cp < 0x10000 then
      [(0xE0 + cp / 4096) as byte, (0x80 + (cp / 64) % 64) as byte, (0x80 + cp % 64) as byte]
    else
      [(0xF0 + cp / 262144) as byte, (0x80 + (cp / 4096) % 64) as byte,
       (0x80 + (cp / 64) % 64) as byte, (0x80 + cp % 64) as byte]
  }

  /** `s.as_bytes()`: the UTF-8 encoding of a string. */
  function Utf8(s: string): (bs: seq<byte>)
    ensures |bs| >= |s|
    decreases |s|
  {
    if |s| == 0 then [] else Utf8(s[..|s| - 1]) + Utf8Char(s[|s| - 1])
  }

  /** An ASCII string encodes to its own character codes. */
  lemma {:induction false} Utf8Ascii(s: string)
    requires forall i :: 0 <= i < |s| ==> s[i] as int < 0x80
    ensures |Utf8(s)| == |s|
    ensures forall i :: 0 <= i < |s| ==> Utf8(s)[i] as int == s[i] as int
    decreases |s|
  {
    if |s| > 0 {
      Utf8Ascii(s[..|s| - 1]);
    }
  }

  /** UTF-8 distributes over concatenation. */
  lemma {:induction false} Utf8Append(s: string, t: string)
    ensures Utf8(s + t) == Utf8(s) + Utf8(t)
    decreases |t|
  {
    if |t| == 0 {
      assert s + t == s;
    } else {
      var u, t' := s + t, t[..|t| - 1];
      assert u[..|u| - 1] == s + t';
      assert u[|u| - 1] == t[|t| - 1];
      var last := Utf8Char(t[|t| - 1]);
      assert Utf8(u) == Utf8(s + t') + last;
      Utf8Append(s, t');
      assert Utf8(t) == Utf8(t') + last;
      assert Utf8(s) + Utf8(t') + last == Utf8(s) + (Utf8(t') + last);
    }
  }

  /** A hexadecimal digit, lower-case as `{:x}` writes it or upper-case as percent-encoding writes it. */
  function HexDigit(d: nat, upper: bool): (c: char)
    requires d < 16
    ensures d < 10 ==> c == ('0' as int + d) as char
    ensures d >= 10 ==> c == ((if upper then 'A' else 'a') as int + d - 10) as char
  {
    if d < 10 then ('0' as int + d) as char
    else ((if upper then 'A' else 'a') as int + d - 10) as char
  }

  /** The value of a hexadecimal digit of either case. */
  function HexValue(c: char): (r: int)
    ensures -1 <= r < 16
    ensures r >= 0 ==> HexDigit(r, 'A' <= c <= 'F') == c
  {
    if '0' <= c <= '9' then c as int - '0' as int
    else if 'a' <= c <= 'f' then c as int - 'a' as int + 10
    else if 'A' <= c <= 'F' then c as int - 'A' as int + 10
    else -1
  }

  lemma HexRoundTrip(d: nat, upper: bool)
    requires d < 16
    ensures HexValue(HexDigit(d, upper)) == d
  {
  }
}
