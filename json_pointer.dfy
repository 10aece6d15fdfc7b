/** `Value::pointer` of serde_json: a JSON Pointer (RFC 6901) is split at '/', each reference
    token has "~1" read as '/' and "~0" read as '~', and the tokens are followed one by one
    through objects (by key) and arrays (by decimal index). */
module JsonPointer {
  import opened Wrappers
  import opened Json
  import Text
  import StringOrder

  /** `str::replace(pat, to)`: the non-overlapping occurrences of pat, found left to right, each
      replaced by to. */
  function Replace(s: string, pat: string, to: string): string
    requires |pat| > 0
    decreases |s|
  {
    if |s| < |pat| then s
    else if s[..|pat|] == pat then to + Replace(s[|pat|..], pat, to)
    else [s[0]] + Replace(s[1..], pat, to)
  }

  /** A reference token as written in a pointer, read back: first "~1" becomes '/', then "~0"
      becomes '~'. */
  function Unescape(token: string): string {
    Replace(Replace(token, "~1", "/"), "~0", "~")
  }

  function UnescapeAll(tokens: seq<string>): (r: seq<string>)
    ensures |r| == |tokens|
    ensures forall n :: 0 <= n < |tokens| ==> r[n] == Unescape(tokens[n])
  {
    seq(|tokens|, n requires 0 <= n < |tokens| => Unescape(tokens[n]))
  }

  /** A key written as a reference token: '~' as "~0" and '/' as "~1". */
  function EscapeToken(key: string): (r: string)
    ensures '/' !in r
    decreases |key|
  {
    if |key| == 0 then ""
    else (if key[0] == '~' then "~0" else if key[0] == '/' then "~1" else [key[0]]) + EscapeToken(key[1..])
  }

  /** `parse_index`: a decimal array index with no sign and no leading zero that fits a
      `usize` of 64 bits. */
  function ParseIndex(token: string): (r: Option<nat>)
    ensures r.Some? ==> Text.NatToString(r.value) == token && r.value < 0x1_0000_0000_0000_0000
  {
    if |token| == 0 || !Text.AllDigits(token) || (token[0] == '0' && |token| != 1) then None
    else if Text.ParseNat(token) >= 0x1_0000_0000_0000_0000 then None
    else
      CanonicalNumeral(token);
      Some(Text.ParseNat(token))
  }

  /** One step of the walk: an object's member by key, an array's element by index. */
  function Step(target: JValue, token: string): (r: Option<JValue>)
    ensures target.JObj? ==> r == Get(target.entries, token)
    ensures !target.JObj? && !target.JArr? ==> r.None?
  {
    match target
    case JObj(entries) => Get(entries, token)
    case JArr(items) =>
      (match ParseIndex(token)
       case Some(x) => if x < |items| then Some(items[x]) else None
       case None => None)
    case _ => None
  }

  /** The `try_fold` over the tokens: stops at the first step that finds nothing. */
  function Walk(target: JValue, tokens: seq<string>): Option<JValue>
    decreases |tokens|
  {
    if |tokens| == 0 then Some(target)
    else
      match Step(target, tokens[0])
      case Some(next) => Walk(next, tokens[1..])
      case None => None
  }

  /** `value.pointer(p)`: the whole value for "", nothing for a pointer that does not start
      with '/', otherwise the walk along the unescaped tokens after the leading '/'. */
  function Pointer(j: JValue, p: string): (r: Option<JValue>)
    ensures p == "" ==> r == Some(j)
    ensures p != "" && p[0] != '/' ==> r.None?
  {
    if p == "" then Some(j)
    else if p[0] != '/' then None
    else Walk(j, UnescapeAll(Text.Split(p, '/')[1..]))
  }

  /** A numeral without leading zeros is the rendering of its value. */
  lemma {:induction false} CanonicalNumeral(s: string)
    requires |s| > 0 && Text.AllDigits(s) && (|s| > 1 ==> s[0] != '0')
    ensures Text.NatToString(Text.ParseNat(s)) == s
    decreases |s|
  {
    var init := s[..|s| - 1];
    var d := Text.DigitValue(s[|s| - 1]);
    if |s| == 1 {
      assert Text.ParseNat(s) == Text.ParseNat(init) * 10 + d;
    } else {
      assert init[0] == s[0];
      CanonicalNumeral(init);
      var m := Text.ParseNat(init);
      assert m > 0;
      assert Text.ParseNat(s) == m * 10 + d;
      assert (m * 10 + d) / 10 == m && (m * 10 + d) % 10 == d;
      assert s == init + [s[|s| - 1]];
    }
  }

  /** Every index below 2^64 is found through its decimal numeral. */
  lemma ParseIndexOfNumeral(n: nat)
    requires n < 0x1_0000_0000_0000_0000
    ensures ParseIndex(Text.NatToString(n)) == Some(n)
  {
    Text.ParseNatToString(n);
  }

  /** A leading zero, a sign, or anything else than digits is not an index. */
  lemma ParseIndexRejects(token: string)
    requires |token| == 0 || (|token| > 1 && token[0] == '0') || token[0] == '+'
    ensures ParseIndex(token).None?
  {
  }

  /** Half of the escaping: '~' as "~0", everything else as itself. */
  function EscapeTilde(key: string): string
    decreases |key|
  {
    if |key| == 0 then "" else (if key[0] == '~' then "~0" else [key[0]]) + EscapeTilde(key[1..])
  }

  /** The first replacement turns each "~1" of an escaped key back into '/' and leaves "~0". */
  lemma {:induction false} ReplaceSlashes(key: string)
    ensures Replace(EscapeToken(key), "~1", "/") == EscapeTilde(key)
    decreases |key|
  {
    if |key| > 0 {
      var rest := EscapeToken(key[1..]);
      ReplaceSlashes(key[1..]);
      if key[0] == '~' {
        var s := "~0" + rest;
        assert s[..2] != "~1" by { assert s[1] == '0'; }
        assert s[1..] == "0" + rest;
        ReplaceSkip('0', rest, "~1", "/");
      } else if key[0] == '/' {
        var s := "~1" + rest;
        assert s[..2] == "~1" && s[2..] == rest;
      } else {
        ReplaceSkip(key[0], rest, "~1", "/");
      }
    }
  }

  /** A character that does not start the pattern is kept as it is. */
  lemma ReplaceSkip(c: char, rest: string, pat: string, to: string)
    requires |pat| > 0 && c != pat[0]
    ensures Replace([c] + rest, pat, to) == [c] + Replace(rest, pat, to)
  {
    var s := [c] + rest;
    if |s| >= |pat| { assert s[..|pat|][0] == c; }
    assert s[1..] == rest;
  }

  /** The second replacement turns each "~0" back into '~'. */
  lemma {:induction false} ReplaceTildes(key: string)
    ensures Replace(EscapeTilde(key), "~0", "~") == key
    decreases |key|
  {
    if |key| > 0 {
      var rest := EscapeTilde(key[1..]);
      ReplaceTildes(key[1..]);
      if key[0] == '~' {
        var s := "~0" + rest;
        assert s[..2] == "~0" && s[2..] == rest;
      } else {
        ReplaceSkip(key[0], rest, "~0", "~");
      }
      assert key == [key[0]] + key[1..];
    }
  }

  /** Escaping a key and reading the token back gives the key again, whatever '/' or '~' it
      holds. */
  lemma UnescapeEscape(key: string)
    ensures Unescape(EscapeToken(key)) == key
  {
    ReplaceSlashes(key);
    ReplaceTildes(key);
  }

  /** Text without the first character of the pattern is left as it is. */
  lemma {:induction false} ReplaceAbsent(s: string, pat: string, to: string)
    requires |pat| > 0 && pat[0] !in s
    ensures Replace(s, pat, to) == s
    decreases |s|
  {
    if |s| >= |pat| {
      assert s[..|pat|][0] == s[0];
      assert pat[0] !in s[1..] by {
        forall i | 0 <= i < |s| - 1 ensures s[1..][i] != pat[0] {
          assert s[1..][i] == s[i + 1];
        }
      }
      ReplaceAbsent(s[1..], pat, to);
      assert [s[0]] + s[1..] == s;
    }
  }

  /** A token without '~' reads as itself. */
  lemma UnescapePlain(token: string)
    requires '~' !in token
    ensures Unescape(token) == token
  {
    ReplaceAbsent(token, "~1", "/");
    ReplaceAbsent(token, "~0", "~");
  }

  /** "/" + a token without '/' is a single step. */
  lemma {:induction false} PointerOneToken(j: JValue, token: string)
    requires '/' !in token
    ensures Pointer(j, "/" + token) == Step(j, Unescape(token))
  {
    Text.SplitAfter("", token, '/');
    Text.SplitPlain(token, '/');
    assert "/" + token == "" + ['/'] + token;
    var tokens := UnescapeAll(Text.Split("/" + token, '/')[1..]);
    assert tokens == [Unescape(token)];
    match Step(j, Unescape(token))
    case Some(next) => assert Walk(next, tokens[1..]) == Some(next);
    case None =>
  }

  /** A key of any text is reached by escaping it: "/" + the escaped key finds the member of
      that name. */
  lemma PointerEscapedKey(j: JValue, key: string)
    ensures Pointer(j, "/" + EscapeToken(key)) == Step(j, key)
  {
    PointerOneToken(j, EscapeToken(key));
    UnescapeEscape(key);
  }

  /** A plain name is looked up as an object key, and never in anything but an object or an
      array. */
  lemma PointerPlainName(j: JValue, name: string)
    requires '/' !in name && '~' !in name
    ensures j.JObj? ==> Pointer(j, "/" + name) == Get(j.entries, name)
    ensures !j.JObj? && !j.JArr? ==> Pointer(j, "/" + name).None?
  {
    PointerOneToken(j, name);
    UnescapePlain(name);
  }

  /** A name holding '/' is not one key: "/a/b" looks up b inside the value at a. */
  lemma {:induction false} PointerTwoTokens(j: JValue, a: string, b: string)
    requires '/' !in a && '/' !in b
    ensures Pointer(j, "/" + a + "/" + b) ==
      (match Pointer(j, "/" + a) case Some(x) => Pointer(x, "/" + b) case None => None)
  {
    Text.SplitAfter("", a + "/" + b, '/');
    Text.SplitAfter(a, b, '/');
    Text.SplitPlain(b, '/');
    assert "/" + a + "/" + b == "" + ['/'] + (a + [ '/'] + b);
    var tokens := UnescapeAll(Text.Split("/" + a + "/" + b, '/')[1..]);
    assert tokens == [Unescape(a), Unescape(b)];
    PointerOneToken(j, a);
    WalkOne(j, Unescape(a));
    if Step(j, Unescape(a)).Some? {
      var x := Step(j, Unescape(a)).value;
      PointerOneToken(x, b);
      assert tokens[1..] == [Unescape(b)];
      WalkOne(x, Unescape(b));
    }
  }

  /** A walk of one token is one step. */
  lemma WalkOne(t: JValue, token: string)
    ensures Walk(t, [token]) == Step(t, token)
  {
    if Step(t, token).Some? {
      assert Walk(Step(t, token).value, [token][1..]) == Step(t, token);
    }
  }

  /** In entries with ascending keys, such as a `BTreeMap` writes, `Get` finds what
      `BTreeMap::get` finds. */
  lemma GetSorted(entries: seq<(string, JValue)>, key: string)
    requires StringOrder.SortedEntries(entries)
    ensures Get(entries, key) == StringOrder.Lookup(entries, key)
  {
    match Get(entries, key)
    case Some(v) => StringOrder.LookupStored(entries, key, v);
    case None =>
  }
}
