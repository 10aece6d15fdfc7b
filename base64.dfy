/** Standard padded base64 (RFC 4648, section 4), strict as the `base64` crate's `STANDARD`
    engine decodes it: canonical padding and no stray bits in the last symbol. */
module Base64 {
  import opened Wrappers
  import opened Bytes

  /** The symbol for a 6-bit value: A-Z, a-z, 0-9, '+', '/'. */
  function Symbol(i: nat): (c: char)
    requires i < 64
    ensures c != '=' && c != '\n' && c != '\r' && c != ' '
  {
    if i < 26 then ('A' as int + i) as char
    else if i < 52 then ('a' as int + i - 26) as char
    else if i < 62 then ('0' as int + i - 52) as char
    else if i == 62 then '+' else '/'
  }

  /** The 6-bit value of a symbol; `None` for every other character, the pad '=' included. */
  function Value(c: char): (r: Option<nat>)
    ensures r.Some? ==> r.value < 64 && Symbol(r.value) == c
  {
    if 'A' <= c <= 'Z' then Some(c as int - 'A' as int)
    else if 'a' <= c <= 'z' then Some(c as int - 'a' as int + 26)
    else if '0' <= c <= '9' then Some(c as int - '0' as int + 52)
    else if c == '+' then Some(62)
    else if c == '/' then Some(63)
    else None
  }

  lemma ValueOfSymbol(i: nat)
    requires i < 64
    ensures Value(Symbol(i)) == Some(i)
  {
  }

  predicate IsSymbol(c: char) { Value(c).Some? }

  // Three bytes x y z become the four 6-bit groups of their 24 bits.

  function EncodeThree(x: byte, y: byte, z: byte): string {
    [Symbol(x as int / 4), Symbol((x as int % 4) * 16 + y as int / 16),
     Symbol((y as int % 16) * 4 + z as int / 64), Symbol(z as int % 64)]
  }

  function EncodeTwo(x: byte, y: byte): string {
    [Symbol(x as int / 4), Symbol((x as int % 4) * 16 + y as int / 16),
     Symbol((y as int % 16) * 4), '=']
  }

  function EncodeOne(x: byte): string {
    [Symbol(x as int / 4), Symbol((x as int % 4) * 16), '=', '=']
  }

  /** `BASE64.encode(bytes)`. */
  function Encode(bs: seq<byte>): (s: string)
    ensures |bs| == 0 <==> |s| == 0
    ensures |bs| > 0 ==> |s| >= 4
    decreases |bs|
  {
    if |bs| == 0 then ""
    else if |bs| == 1 then EncodeOne(bs[0])
    else if |bs| == 2 then EncodeTwo(bs[0], bs[1])
    else EncodeThree(bs[0], bs[1], bs[2]) + Encode(bs[3..])
  }

  /** Every encoding is a whole number of four-symbol groups. */
  lemma {:induction false} EncodeLength(bs: seq<byte>)
    ensures |Encode(bs)| % 4 == 0
    decreases |bs|
  {
    if |bs| > 2 {
      EncodeLength(bs[3..]);
      assert |Encode(bs)| == 4 + |Encode(bs[3..])|;
    }
  }

  /** A group of four symbols with no padding. */
  function DecodeFull(a: char, b: char, c: char, d: char): (r: Option<seq<byte>>)
    ensures r.Some? ==> |r.value| == 3
  {
    if !(IsSymbol(a) && IsSymbol(b) && IsSymbol(c) && IsSymbol(d)) then None
    else
      var va, vb, vc, vd := Value(a).value, Value(b).value, Value(c).value, Value(d).value;
      Some([(va * 4 + vb / 16) as byte, ((vb % 16) * 16 + vc / 4) as byte, ((vc % 4) * 64 + vd) as byte])
  }

  /** The last group, which may end in "=" or "=="; the bits a pad leaves unused must be zero. */
  function DecodeLast(a: char, b: char, c: char, d: char): Option<seq<byte>> {
    if c == '=' && d == '=' then
      if IsSymbol(a) && IsSymbol(b) && Value(b).value % 16 == 0 then
        Some([(Value(a).value * 4 + Value(b).value / 16) as byte])
      else None
    else if d == '=' then
      if IsSymbol(a) && IsSymbol(b) && IsSymbol(c) && Value(c).value % 4 == 0 then
        var va, vb, vc := Value(a).value, Value(b).value, Value(c).value;
        Some([(va * 4 + vb / 16) as byte, ((vb % 16) * 16 + vc / 4) as byte])
      else None
    else DecodeFull(a, b, c, d)
  }

  /** `STANDARD.decode(s)`: `None` for a length that is not a multiple of four, misplaced or
      missing padding, a character outside the alphabet, or a last symbol with stray bits. */
  function Decode(s: string): Option<seq<byte>>
    decreases |s|
  {
    if |s| == 0 then Some([])
    else if |s| < 4 then None
    else if |s| == 4 then DecodeLast(s[0], s[1], s[2], s[3])
    else
      var q :- DecodeFull(s[0], s[1], s[2], s[3]);
      var rest :- Decode(s[4..]);
      Some(q + rest)
  }

  lemma ThreeRoundTrip(x: byte, y: byte, z: byte)
    ensures DecodeFull(EncodeThree(x, y, z)[0], EncodeThree(x, y, z)[1],
                       EncodeThree(x, y, z)[2], EncodeThree(x, y, z)[3]) == Some([x, y, z])
  {
    var xi, yi, zi := x as int, y as int, z as int;
    var a, b, c, d := xi / 4, (xi % 4) * 16 + yi / 16, (yi % 16) * 4 + zi / 64, zi % 64;
    ValueOfSymbol(a); ValueOfSymbol(b); ValueOfSymbol(c); ValueOfSymbol(d);
    assert b / 16 == xi % 4 && b % 16 == yi / 16;
    assert c / 4 == yi % 16 && c % 4 == zi / 64;
  }

  lemma TwoRoundTrip(x: byte, y: byte)
    ensures DecodeLast(EncodeTwo(x, y)[0], EncodeTwo(x, y)[1], EncodeTwo(x, y)[2], '=') == Some([x, y])
  {
    var xi, yi := x as int, y as int;
    var a, b, c := xi / 4, (xi % 4) * 16 + yi / 16, (yi % 16) * 4;
    ValueOfSymbol(a); ValueOfSymbol(b); ValueOfSymbol(c);
    assert b / 16 == xi % 4 && b % 16 == yi / 16;
    assert c / 4 == yi % 16 && c % 4 == 0;
  }

  lemma OneRoundTrip(x: byte)
    ensures DecodeLast(EncodeOne(x)[0], EncodeOne(x)[1], '=', '=') == Some([x])
  {
    var xi := x as int;
    var a, b := xi / 4, (xi % 4) * 16;
    ValueOfSymbol(a); ValueOfSymbol(b);
    assert b / 16 == xi % 4 && b % 16 == 0;
  }

  /** How the decoder reads a full group followed by more input. */
  lemma DecodeStep(g: string, rest: string)
    requires |g| == 4 && |rest| >= 4
    ensures Decode(g + rest) ==
      match DecodeFull(g[0], g[1], g[2], g[3])
      case None => None
      case Some(q) => (match Decode(rest) case None => None case Some(r) => Some(q + r))
  {
    var s := g + rest;
    assert s[4..] == rest;
    assert s[0] == g[0] && s[1] == g[1] && s[2] == g[2] && s[3] == g[3];
  }

  lemma DecodeEncodeOne(bs: seq<byte>)
    requires |bs| == 1
    ensures Decode(Encode(bs)) == Some(bs)
  {
    var g := EncodeOne(bs[0]);
    assert Encode(bs) == g;
    OneRoundTrip(bs[0]);
    assert Decode(g) == DecodeLast(g[0], g[1], g[2], g[3]);
    assert [bs[0]] == bs;
  }

  lemma DecodeEncodeTwo(bs: seq<byte>)
    requires |bs| == 2
    ensures Decode(Encode(bs)) == Some(bs)
  {
    var g := EncodeTwo(bs[0], bs[1]);
    assert Encode(bs) == g;
    TwoRoundTrip(bs[0], bs[1]);
    assert Decode(g) == DecodeLast(g[0], g[1], g[2], g[3]);
    assert [bs[0], bs[1]] == bs;
  }

  lemma DecodeEncodeThree(bs: seq<byte>)
    requires |bs| == 3
    ensures Decode(Encode(bs)) == Some(bs)
  {
    var g := EncodeThree(bs[0], bs[1], bs[2]);
    assert bs[3..] == [];
    assert Encode(bs) == g + Encode([]);
    assert g + Encode([]) == g;
    ThreeRoundTrip(bs[0], bs[1], bs[2]);
    assert Decode(g) == DecodeLast(g[0], g[1], g[2], g[3]) == DecodeFull(g[0], g[1], g[2], g[3]);
    assert [bs[0], bs[1], bs[2]] == bs;
  }

  lemma EncodeCons(x: byte, y: byte, z: byte, rest: seq<byte>)
    requires |rest| > 0
    ensures Encode([x, y, z] + rest) == EncodeThree(x, y, z) + Encode(rest)
  {
    assert ([x, y, z] + rest)[3..] == rest;
  }

  lemma DecodeCons(t: string, r: string, q: seq<byte>, rest: seq<byte>)
    requires |t| == 4 && |r| >= 4
    requires DecodeFull(t[0], t[1], t[2], t[3]) == Some(q) && Decode(r) == Some(rest)
    ensures Decode(t + r) == Some(q + rest)
  {
    DecodeStep(t, r);
  }

  lemma DecodeEncodeLong(x: byte, y: byte, z: byte, rest: seq<byte>)
    requires |rest| > 0 && Decode(Encode(rest)) == Some(rest)
    ensures Decode(Encode([x, y, z] + rest)) == Some([x, y, z] + rest)
  {
    EncodeCons(x, y, z, rest);
    ThreeRoundTrip(x, y, z);
    DecodeCons(EncodeThree(x, y, z), Encode(rest), [x, y, z], rest);
  }

  /** Decoding an encoding gives the bytes back. */
  lemma {:induction false} DecodeEncode(bs: seq<byte>)
    ensures Decode(Encode(bs)) == Some(bs)
    decreases |bs|
  {
    if |bs| == 0 {
      DecodeEncodeEmpty();
    } else if |bs| <= 3 {
      DecodeEncodeShort(bs);
    } else {
      var rest := bs[3..];
      DecodeEncode(rest);
      DecodeEncodeLong(bs[0], bs[1], bs[2], rest);
      SplitThree(bs);
    }
  }

  lemma DecodeEncodeEmpty()
    ensures Decode(Encode([])) == Some([])
  {
  }

  lemma SplitThree(bs: seq<byte>)
    requires |bs| > 3
    ensures [bs[0], bs[1], bs[2]] + bs[3..] == bs
  {
  }

  lemma DecodeEncodeShort(bs: seq<byte>)
    requires 0 < |bs| <= 3
    ensures Decode(Encode(bs)) == Some(bs)
  {
    if |bs| == 1 {
      DecodeEncodeOne(bs);
    } else if |bs| == 2 {
      DecodeEncodeTwo(bs);
    } else {
      DecodeEncodeThree(bs);
    }
  }

  /** The bit arithmetic of a full group: regrouping four 6-bit values into three bytes and
      back again gives the same four values. */
  lemma GroupArith(va: nat, vb: nat, vc: nat, vd: nat)
    requires va < 64 && vb < 64 && vc < 64 && vd < 64
    ensures var x, y, z := va * 4 + vb / 16, (vb % 16) * 16 + vc / 4, (vc % 4) * 64 + vd;
      x < 256 && y < 256 && z < 256 &&
      x / 4 == va && (x % 4) * 16 + y / 16 == vb && (y % 16) * 4 + z / 64 == vc && z % 64 == vd
  {
  }

  lemma FullIsEncoding(a: char, b: char, c: char, d: char)
    requires DecodeFull(a, b, c, d).Some?
    ensures var r := DecodeFull(a, b, c, d).value; EncodeThree(r[0], r[1], r[2]) == [a, b, c, d]
  {
    var va, vb, vc, vd := Value(a).value, Value(b).value, Value(c).value, Value(d).value;
    GroupArith(va, vb, vc, vd);
    var r := DecodeFull(a, b, c, d).value;
    assert r[0] as int / 4 == va;
    assert (r[0] as int % 4) * 16 + r[1] as int / 16 == vb;
    assert (r[1] as int % 16) * 4 + r[2] as int / 64 == vc;
    assert r[2] as int % 64 == vd;
  }

  lemma PairArith(va: nat, vb: nat)
    requires va < 64 && vb < 64 && vb % 16 == 0
    ensures var x := va * 4 + vb / 16; x < 256 && x / 4 == va && (x % 4) * 16 == vb
  {
  }

  lemma TripleArith(va: nat, vb: nat, vc: nat)
    requires va < 64 && vb < 64 && vc < 64 && vc % 4 == 0
    ensures var x, y := va * 4 + vb / 16, (vb % 16) * 16 + vc / 4;
      x < 256 && y < 256 && x / 4 == va && (x % 4) * 16 + y / 16 == vb && (y % 16) * 4 == vc
  {
  }

  lemma LastOneIsEncoding(a: char, b: char)
    requires DecodeLast(a, b, '=', '=').Some?
    ensures var r := DecodeLast(a, b, '=', '=').value; |r| == 1 && Encode(r) == [a, b, '=', '=']
  {
    var va, vb := Value(a).value, Value(b).value;
    PairArith(va, vb);
    var r := DecodeLast(a, b, '=', '=').value;
    assert r[0] as int / 4 == va && (r[0] as int % 4) * 16 == vb;
    assert Encode(r) == EncodeOne(r[0]);
  }

  lemma LastTwoIsEncoding(a: char, b: char, c: char)
    requires c != '=' && DecodeLast(a, b, c, '=').Some?
    ensures var r := DecodeLast(a, b, c, '=').value; |r| == 2 && Encode(r) == [a, b, c, '=']
  {
    var va, vb, vc := Value(a).value, Value(b).value, Value(c).value;
    TripleArith(va, vb, vc);
    var r := DecodeLast(a, b, c, '=').value;
    assert r[0] as int / 4 == va && (r[0] as int % 4) * 16 + r[1] as int / 16 == vb;
    assert (r[1] as int % 16) * 4 == vc;
    assert Encode(r) == EncodeTwo(r[0], r[1]);
  }

  lemma LastIsEncoding(a: char, b: char, c: char, d: char)
    requires DecodeLast(a, b, c, d).Some?
    ensures var r := DecodeLast(a, b, c, d).value; 1 <= |r| <= 3 && Encode(r) == [a, b, c, d]
  {
    if c == '=' && d == '=' {
      LastOneIsEncoding(a, b);
    } else if d == '=' {
      LastTwoIsEncoding(a, b, c);
    } else {
      var r := DecodeLast(a, b, c, d).value;
      assert r == DecodeFull(a, b, c, d).value;
      FullIsEncoding(a, b, c, d);
      assert r[3..] == [];
      assert Encode(r) == EncodeThree(r[0], r[1], r[2]) + Encode([]);
    }
  }

  lemma EncodeDecodeLast(s: string)
    requires |s| == 4 && Decode(s).Some?
    ensures Encode(Decode(s).value) == s
  {
    assert Decode(s) == DecodeLast(s[0], s[1], s[2], s[3]);
    LastIsEncoding(s[0], s[1], s[2], s[3]);
    assert s == [s[0], s[1], s[2], s[3]];
  }

  lemma DecodeSplit(s: string)
    requires |s| > 4 && Decode(s).Some?
    ensures DecodeFull(s[0], s[1], s[2], s[3]).Some? && Decode(s[4..]).Some?
    ensures Decode(s).value == DecodeFull(s[0], s[1], s[2], s[3]).value + Decode(s[4..]).value
  {
  }

  lemma EncodeGroupThenRest(q: seq<byte>, rest: seq<byte>)
    requires |q| == 3 && |rest| > 0
    ensures Encode(q + rest) == EncodeThree(q[0], q[1], q[2]) + Encode(rest)
  {
    assert q == [q[0], q[1], q[2]];
    EncodeCons(q[0], q[1], q[2], rest);
  }

  lemma EncodeDecodeLong(s: string, q: seq<byte>, rest: seq<byte>)
    requires |s| > 4 && DecodeFull(s[0], s[1], s[2], s[3]) == Some(q) && Encode(rest) == s[4..]
    ensures Encode(q + rest) == s
  {
    FullIsEncoding(s[0], s[1], s[2], s[3]);
    assert |rest| > 0;
    EncodeGroupThenRest(q, rest);
    assert s == [s[0], s[1], s[2], s[3]] + s[4..];
  }

  /** Whatever the decoder accepts is the encoding of what it returns: the strict decoder
      accepts exactly the canonical encodings. */
  lemma {:induction false} EncodeDecode(s: string)
    requires Decode(s).Some?
    ensures Encode(Decode(s).value) == s
    decreases |s|
  {
    if |s| == 4 {
      EncodeDecodeLast(s);
    } else if |s| > 4 {
      DecodeSplit(s);
      EncodeDecode(s[4..]);
      EncodeDecodeLong(s, DecodeFull(s[0], s[1], s[2], s[3]).value, Decode(s[4..]).value);
    }
  }

  /** Decoding succeeds with b exactly when the input is the encoding of b. */
  lemma DecodeIffEncoding(s: string, bs: seq<byte>)
    ensures Decode(s) == Some(bs) <==> s == Encode(bs)
  {
    if Decode(s) == Some(bs) { EncodeDecode(s); }
    if s == Encode(bs) { DecodeEncode(bs); }
  }

  /** An encoding holds only alphabet symbols and '='. */
  lemma {:induction false} EncodeAlphabet(bs: seq<byte>)
    ensures forall i :: 0 <= i < |Encode(bs)| ==> IsSymbol(Encode(bs)[i]) || Encode(bs)[i] == '='
    decreases |bs|
  {
    if |bs| == 1 {
      ValueOfSymbol(bs[0] as int / 4); ValueOfSymbol((bs[0] as int % 4) * 16);
    } else if |bs| == 2 {
      ValueOfSymbol(bs[0] as int / 4);
      ValueOfSymbol((bs[0] as int % 4) * 16 + bs[1] as int / 16);
      ValueOfSymbol((bs[1] as int % 16) * 4);
    } else if |bs| >= 3 {
      ValueOfSymbol(bs[0] as int / 4);
      ValueOfSymbol((bs[0] as int % 4) * 16 + bs[1] as int / 16);
      ValueOfSymbol((bs[1] as int % 16) * 4 + bs[2] as int / 64);
      ValueOfSymbol(bs[2] as int % 64);
      EncodeAlphabet(bs[3..]);
    }
  }

  /** `s.replace("\n", "")`. */
  function RemoveNewlines(s: string): (r: string)
    ensures forall i :: 0 <= i < |r| ==> r[i] != '\n'
    decreases |s|
  {
    if |s| == 0 then "" else (if s[0] == '\n' then "" else [s[0]]) + RemoveNewlines(s[1..])
  }

  lemma {:induction false} RemoveNewlinesAppend(s: string, t: string)
    ensures RemoveNewlines(s + t) == RemoveNewlines(s) + RemoveNewlines(t)
    decreases |s|
  {
    if |s| == 0 {
      assert s + t == t;
    } else {
      assert (s + t)[1..] == s[1..] + t;
      RemoveNewlinesAppend(s[1..], t);
    }
  }

  lemma {:induction false} RemoveNewlinesKeeps(s: string, c: char)
    requires c in s && c != '\n'
    ensures c in RemoveNewlines(s)
    decreases |s|
  {
    if s[0] != c {
      RemoveNewlinesKeeps(s[1..], c);
    }
  }

  lemma {:induction false} RemoveNewlinesNone(s: string)
    requires forall i :: 0 <= i < |s| ==> s[i] != '\n'
    ensures RemoveNewlines(s) == s
    decreases |s|
  {
    if |s| > 0 { RemoveNewlinesNone(s[1..]); }
  }

  /** How file contents arrive from the contents API: every '\n' is dropped, then the rest is
      decoded strictly. */
  function DecodeWrapped(s: string): Option<seq<byte>> {
    Decode(RemoveNewlines(s))
  }

  /** The wrapped decoder returns b exactly when the text minus its newlines is the encoding of b. */
  lemma DecodeWrappedIff(s: string, bs: seq<byte>)
    ensures DecodeWrapped(s) == Some(bs) <==> RemoveNewlines(s) == Encode(bs)
  {
    DecodeIffEncoding(RemoveNewlines(s), bs);
  }

  /** A newline inserted anywhere into the encoding of b still decodes to b. */
  lemma {:induction false} DecodeWithNewline(s: string, i: nat, bs: seq<byte>)
    requires i <= |s| && DecodeWrapped(s) == Some(bs)
    ensures DecodeWrapped(s[..i] + "\n" + s[i..]) == Some(bs)
  {
    var t := s[..i] + "\n" + s[i..];
    assert RemoveNewlines("\n") == "";
    RemoveNewlinesAppend(s[..i] + "\n", s[i..]);
    RemoveNewlinesAppend(s[..i], "\n");
    RemoveNewlinesAppend(s[..i], s[i..]);
    assert s[..i] + s[i..] == s;
    assert RemoveNewlines(t) == RemoveNewlines(s);
  }

  /** `text` broken into lines of `width` characters, as GitHub sends file contents. */
  function Wrap(text: string, width: nat): string
    requires width > 0
    decreases |text|
  {
    if |text| <= width then text else text[..width] + "\n" + Wrap(text[width..], width)
  }

  /** Bytes sent as encoded lines of any width decode to those same bytes. */
  lemma {:induction false} DecodeWrappedEncoding(bs: seq<byte>, width: nat)
    requires width > 0
    ensures DecodeWrapped(Wrap(Encode(bs), width)) == Some(bs)
  {
    EncodeAlphabet(bs);
    NewlineFreeWrap(Encode(bs), width);
    DecodeEncode(bs);
  }

  /** Unwrapped text, as `BASE64.encode` writes it, decodes back to the bytes. */
  lemma DecodeWrappedOfEncode(bs: seq<byte>)
    ensures DecodeWrapped(Encode(bs)) == Some(bs)
  {
    DecodeWrappedEncoding(bs, |Encode(bs)| + 1);
  }

  lemma {:induction false} NewlineFreeWrap(t: string, width: nat)
    requires width > 0 && forall i :: 0 <= i < |t| ==> t[i] != '\n'
    ensures RemoveNewlines(Wrap(t, width)) == t
    decreases |t|
  {
    if |t| <= width {
      RemoveNewlinesNone(t);
    } else {
      NewlineFreeWrap(t[width..], width);
      RemoveNewlinesAppend(t[..width] + "\n", Wrap(t[width..], width));
      RemoveNewlinesAppend(t[..width], "\n");
      RemoveNewlinesNone(t[..width]);
      assert t[..width] + t[width..] == t;
    }
  }

  /** A carriage return, a space or any character outside the alphabet makes decoding fail. */
  lemma DecodeWrappedRejects(s: string, c: char)
    requires c in s && c != '\n' && c != '=' && !IsSymbol(c)
    ensures DecodeWrapped(s) == None
  {
    if DecodeWrapped(s).Some? {
      var bs := DecodeWrapped(s).value;
      DecodeWrappedIff(s, bs);
      RemoveNewlinesKeeps(s, c);
      EncodeAlphabet(bs);
    }
  }
}
