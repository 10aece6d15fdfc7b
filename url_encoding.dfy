/** The two URL encodings the client applies: application/x-www-form-urlencoded for query
    strings (the `url` crate's `form_urlencoded`) and percent-encoding of a path segment. */
module UrlEncoding {
  import opened Wrappers
  import opened Bytes

  /** Bytes `byte_serialize` leaves as they are: ASCII letters and digits and `*-._`. */
  predicate FormSafe(b: byte) {
    (0x30 <= b <= 0x39) || (0x41 <= b <= 0x5A) || (0x61 <= b <= 0x7A)
    || b == 0x2A || b == 0x2D || b == 0x2E || b == 0x5F
  }

  /** `%XX` with upper-case hex digits. */
  function PercentByte(b: byte): (s: string)
    ensures |s| == 3 && s[0] == '%'
  {
    ['%', HexDigit(b as int / 16, true), HexDigit(b as int % 16, true)]
  }

  function FormByte(b: byte): (s: string)
    ensures |s| == 1 || |s| == 3
  {
    if b == 0x20 then "+"
    else if FormSafe(b) then [b as int as char]
    else PercentByte(b)
  }

  /** `form_urlencoded::byte_serialize`: space becomes '+', safe bytes stay, all others are `%XX`. */
  function FormEncodeBytes(bs: seq<byte>): (s: string)
    ensures |s| >= |bs|
    decreases |bs|
  {
    if |bs| == 0 then "" else FormByte(bs[0]) + FormEncodeBytes(bs[1..])
  }

  /** The form encoding of a Rust string, which is its UTF-8 bytes form-encoded. */
  function FormEncode(s: string): (r: string)
    ensures FormDecodeBytes(r) == Some(Utf8(s))
  {
    FormRoundTrip(Utf8(s));
    FormEncodeBytes(Utf8(s))
  }

  /** Reading a form-encoded string back into bytes; `None` for text `byte_serialize` never writes. */
  function FormDecodeBytes(t: string): Option<seq<byte>>
    decreases |t|
  {
    if |t| == 0 then Some([])
    else if t[0] == '+' then
      var rest :- FormDecodeBytes(t[1..]);
      Some([0x20 as byte] + rest)
    else if t[0] == '%' then
      if |t| < 3 || HexValue(t[1]) < 0 || HexValue(t[2]) < 0 then None
      else
        var rest :- FormDecodeBytes(t[3..]);
        Some([(HexValue(t[1]) * 16 + HexValue(t[2])) as byte] + rest)
    else if t[0] as int < 256 && FormSafe(t[0] as int as byte) then
      var rest :- FormDecodeBytes(t[1..]);
      Some([t[0] as int as byte] + rest)
    else None
  }

  lemma FormByteDecodes(b: byte, rest: string)
    ensures FormDecodeBytes(FormByte(b) + rest) ==
      (match FormDecodeBytes(rest)
       case Some(r) => Some([b] + r)
       case None => None)
  {
    var t := FormByte(b) + rest;
    if b == 0x20 {
      assert t[1..] == rest;
    } else if FormSafe(b) {
      assert t[1..] == rest;
    } else {
      assert t[3..] == rest;
      HexRoundTrip(b as int / 16, true);
      HexRoundTrip(b as int % 16, true);
    }
  }

  /** Form encoding loses nothing: decoding it gives the original bytes back. */
  lemma {:induction false} FormRoundTrip(bs: seq<byte>)
    ensures FormDecodeBytes(FormEncodeBytes(bs)) == Some(bs)
    decreases |bs|
  {
    if |bs| > 0 {
      FormRoundTrip(bs[1..]);
      FormByteDecodes(bs[0], FormEncodeBytes(bs[1..]));
      assert [bs[0]] + bs[1..] == bs;
    }
  }

  /** Two byte strings with the same form encoding are equal. */
  lemma FormEncodeInjective(a: seq<byte>, b: seq<byte>)
    requires FormEncodeBytes(a) == FormEncodeBytes(b)
    ensures a == b
  {
    FormRoundTrip(a);
    FormRoundTrip(b);
  }

  /** Characters `byte_serialize` keeps: ASCII letters and digits and `*-._`. */
  predicate FormSafeChar(c: char) {
    ('0' <= c <= '9') || ('A' <= c <= 'Z') || ('a' <= c <= 'z') || c == '*' || c == '-' || c == '.' || c == '_'
  }

  /** Encoding works byte by byte, so it distributes over concatenation. */
  lemma {:induction false} FormEncodeAppend(a: seq<byte>, b: seq<byte>)
    ensures FormEncodeBytes(a + b) == FormEncodeBytes(a) + FormEncodeBytes(b)
    decreases |a|
  {
    if |a| == 0 {
      assert a + b == b;
    } else {
      assert (a + b)[1..] == a[1..] + b;
      FormEncodeAppend(a[1..], b);
    }
  }

  /** Safe bytes are written as the characters they code. */
  lemma {:induction false} FormEncodeSafeBytes(bs: seq<byte>)
    requires forall i :: 0 <= i < |bs| ==> FormSafe(bs[i])
    ensures |FormEncodeBytes(bs)| == |bs|
    ensures forall i :: 0 <= i < |bs| ==> FormEncodeBytes(bs)[i] as int == bs[i] as int
    decreases |bs|
  {
    if |bs| > 0 {
      FormEncodeSafeBytes(bs[1..]);
    }
  }

  /** A string of letters, digits and `*-._` is its own form encoding. */
  lemma FormEncodeSafe(s: string)
    requires forall i :: 0 <= i < |s| ==> FormSafeChar(s[i])
    ensures FormEncode(s) == s
  {
    Utf8Ascii(s);
    FormEncodeSafeBytes(Utf8(s));
  }

  /** A ',' is written as "%2C". */
  lemma FormEncodeComma(a: string, b: string)
    ensures FormEncode(a + "," + b) == FormEncode(a) + "%2C" + FormEncode(b)
  {
    var x, y := Utf8(a), Utf8(b);
    Utf8Append(a, ",");
    Utf8Append(a + ",", b);
    CommaBytes();
    assert Utf8(a + "," + b) == x + [0x2C] + y;
    FormEncodeAppend(x, [0x2C]);
    FormEncodeAppend(x + [0x2C], y);
  }

  /** The comma is the one byte 0x2C, and that byte is percent-encoded. */
  lemma CommaBytes()
    ensures Utf8(",") == [0x2C]
    ensures FormEncodeBytes([0x2C]) == "%2C"
  {
    assert Utf8(",") == Utf8("") + Utf8Char(',');
    assert FormEncodeBytes([0x2C]) == FormByte(0x2C) + FormEncodeBytes([]);
  }

  /** One `name=value` pair as `append_pair` writes it. */
  function FormPair(name: string, value: string): string {
    FormEncode(name) + "=" + FormEncode(value)
  }

  /** `Serializer::new(target).append_pair(name, value)`: a '&' is written first exactly
      when the target already holds text. */
  function AppendPair(target: string, name: string, value: string): (s: string)
    ensures |target| == 0 ==> s == FormPair(name, value)
    ensures |target| > 0 ==> s == target + "&" + FormPair(name, value)
  {
    (if |target| > 0 then target + "&" else target) + FormPair(name, value)
  }

  /** `Serializer::new(String::new()).extend_pairs(pairs).finish()`. */
  function FormPairs(pairs: seq<(string, string)>): (s: string)
    ensures |pairs| == 0 <==> |s| == 0
    decreases |pairs|
  {
    if |pairs| == 0 then ""
    else AppendPair(FormPairs(pairs[..|pairs| - 1]), pairs[|pairs| - 1].0, pairs[|pairs| - 1].1)
  }

  lemma FormPairsOne(name: string, value: string)
    ensures FormPairs([(name, value)]) == FormPair(name, value)
  {
    assert [(name, value)][..0] == [];
  }

  /** Bytes that percent-encoding with the path set (the WHATWG path percent-encode set:
      C0 controls, DEL, non-ASCII, and space " # < > ? ` { }) writes as `%XX`. */
  predicate InPathSet(b: byte) {
    b < 0x20 || b >= 0x7F || b == 0x20 || b == 0x22 || b == 0x23 || b == 0x3C || b == 0x3E
    || b == 0x3F || b == 0x60 || b == 0x7B || b == 0x7D
  }

  function PathByte(b: byte): string {
    if InPathSet(b) then PercentByte(b) else [b as int as char]
  }

  /** `percent_encode(bytes, PATH)`. */
  function PathEncodeBytes(bs: seq<byte>): (s: string)
    decreases |bs|
  {
    if |bs| == 0 then "" else PathByte(bs[0]) + PathEncodeBytes(bs[1..])
  }

  function PathEncode(s: string): (r: string)
    ensures forall i :: 0 <= i < |r| ==> r[i] != ' ' && r[i] != '?' && r[i] != '#' && r[i] as int < 0x7F
  {
    PathEncodeIsInert(Utf8(s));
    PathEncodeBytes(Utf8(s))
  }

  /** An encoded path never holds a space, '?' or '#', so a location cannot start a query or a
      fragment of the URL it is put in, and holds only ASCII characters. */
  lemma {:induction false} PathEncodeIsInert(bs: seq<byte>)
    ensures forall i :: 0 <= i < |PathEncodeBytes(bs)| ==>
      var c := PathEncodeBytes(bs)[i]; c != ' ' && c != '?' && c != '#' && c as int < 0x7F
    decreases |bs|
  {
    if |bs| > 0 {
      PathEncodeIsInert(bs[1..]);
    }
  }

  /** Bytes outside the set are written unchanged. */
  lemma {:induction false} PathEncodeKeepsPlain(bs: seq<byte>)
    requires forall i :: 0 <= i < |bs| ==> !InPathSet(bs[i])
    ensures |PathEncodeBytes(bs)| == |bs|
    ensures forall i :: 0 <= i < |bs| ==> PathEncodeBytes(bs)[i] as int == bs[i] as int
    decreases |bs|
  {
    if |bs| > 0 {
      PathEncodeKeepsPlain(bs[1..]);
    }
  }
}
