/** JSON values and their compact text as `serde_json::to_string` writes it. Numbers are
    integers only; JSON numbers with a fraction or an exponent are not represented. */
module Json {
  import opened Wrappers
  import Text
  import Bytes
  import StringOrder

  datatype JValue =
    | JNull
    | JBool(b: bool)
    | JInt(i: int)
    | JStr(s: string)
    | JArr(items: seq<JValue>)
    | JObj(entries: seq<(string, JValue)>)

  /** The escape serde_json writes for one character of a string, or the character itself. */
  function EscapeChar(c: char): (s: string)
    ensures 1 <= |s| <= 6
    ensures |s| == 1 <==> (c != '"' && c != '\\' && c as int >= 0x20)
    ensures |s| == 1 ==> s[0] == c
    ensures |s| > 1 ==> s[0] == '\\'
  {
    if c == '"' then "\\\""
    else if c == '\\' then "\\\\"
    else if c == '\n' then "\\n"
    else if c == '\r' then "\\r"
    else if c == '\t' then "\\t"
    else if c as int == 0x08 then "\\b"
    else if c as int == 0x0C then "\\f"
    else if c as int < 0x20 then
      "\\u00" + [Bytes.HexDigit(c as int / 16, false), Bytes.HexDigit(c as int % 16, false)]
    else [c]
  }

  function Escape(s: string): string
    decreases |s|
  {
    if |s| == 0 then "" else EscapeChar(s[0]) + Escape(s[1..])
  }

  /** A string needs no escaping when it has no quote, backslash or control character. */
  predicate Plain(s: string) {
    forall i :: 0 <= i < |s| ==> s[i] != '"' && s[i] != '\\' && s[i] as int >= 0x20
  }

  /** A plain string is written between quotes exactly as it is. */
  lemma {:induction false} EscapePlain(s: string)
    requires Plain(s)
    ensures Escape(s) == s
    decreases |s|
  {
    if |s| > 0 {
      EscapePlain(s[1..]);
    }
  }

  function Quote(s: string): string {
    "\"" + Escape(s) + "\""
  }

  /** Compact JSON text: no whitespace, object entries in their stored order. */
  function Render(j: JValue): (r: string)
    ensures |r| > 0
    ensures r[0] == '{' <==> j.JObj?
    ensures r[0] == '[' <==> j.JArr?
    ensures r[0] == '"' <==> j.JStr?
    ensures j.JObj? ==> r[|r| - 1] == '}'
    ensures j.JArr? ==> r[|r| - 1] == ']'
    ensures j.JStr? ==> |r| >= 2 && r[|r| - 1] == '"'
    ensures r == "null" <==> j.JNull?
    ensures j.JBool? ==> (r == "true" <==> j.b)
    decreases j, 1
  {
    match j
    case JNull => "null"
    case JBool(b) => Text.BoolToString(b)
    case JInt(i) => Text.IntToString(i)
    case JStr(s) => Quote(s)
    case JArr(items) => "[" + RenderItems(j, items) + "]"
    case JObj(entries) => "{" + RenderEntries(j, entries) + "}"
  }

  function RenderItems(ghost parent: JValue, items: seq<JValue>): string
    requires forall k :: 0 <= k < |items| ==> items[k] < parent
    decreases parent, 0, |items|
  {
    if |items| == 0 then ""
    else if |items| == 1 then Render(items[0])
    else Render(items[0]) + "," + RenderItems(parent, items[1..])
  }

  function RenderEntries(ghost parent: JValue, entries: seq<(string, JValue)>): string
    requires forall k :: 0 <= k < |entries| ==> entries[k].1 < parent
    decreases parent, 0, |entries|
  {
    if |entries| == 0 then ""
    else
      var entry := Quote(entries[0].0) + ":" + Render(entries[0].1);
      if |entries| == 1 then entry else entry + "," + RenderEntries(parent, entries[1..])
  }

  /** A plain string is written as itself between quotes. */
  lemma QuotePlain(s: string)
    requires Plain(s)
    ensures Quote(s) == "\"" + s + "\""
  {
    EscapePlain(s);
  }

  /** The compact text of an object of two string entries: the first entry and its comma,
      then the second entry and the closing brace. */
  lemma RenderTwoStrings(k1: string, v1: string, k2: string, v2: string)
    ensures Render(JObj([(k1, JStr(v1)), (k2, JStr(v2))])) ==
      ("{" + (Quote(k1) + ":" + Quote(v1)) + ",") + ((Quote(k2) + ":" + Quote(v2)) + "}")
  {
    var j := JObj([(k1, JStr(v1)), (k2, JStr(v2))]);
    var e1, e2 := Quote(k1) + ":" + Quote(v1), Quote(k2) + ":" + Quote(v2);
    assert j.entries[1..] == [(k2, JStr(v2))];
    assert RenderEntries(j, j.entries[1..]) == e2;
    assert RenderEntries(j, j.entries) == e1 + "," + e2;
    assert Render(j) == "{" + (e1 + "," + e2) + "}";
  }

  /** `serde_json::to_string` of a JSON object whose keys and string values are all plain,
      for the one-entry case the request-body examples start from. */
  lemma RenderOneEntry(key: string, value: JValue)
    ensures Render(JObj([(key, value)])) == "{" + Quote(key) + ":" + Render(value) + "}"
  {
  }

  /** The keys of an object's entries, in order. */
  function Keys(entries: seq<(string, JValue)>): (ks: seq<string>)
    ensures |ks| == |entries|
    ensures forall i :: 0 <= i < |entries| ==> ks[i] == entries[i].0
  {
    seq(|entries|, i requires 0 <= i < |entries| => entries[i].0)
  }

  /** `map.get(key)` on the entries of a JSON object as serde_json's `Map` keeps them: a later
      entry with the same key has replaced an earlier one. */
  function Get(entries: seq<(string, JValue)>, key: string): (r: Option<JValue>)
    ensures r.None? <==> key !in Keys(entries)
    ensures r.Some? ==> (key, r.value) in entries
    decreases |entries|
  {
    if |entries| == 0 then None
    else
      var last := entries[|entries| - 1];
      if last.0 == key then Some(last.1) else Get(entries[..|entries| - 1], key)
  }

  /** A `serde_json::Value` as it comes out of reading text: object entries in ascending key
      order with one entry per key (the default `Map` is a `BTreeMap`), nested values likewise. */
  predicate Normalized(j: JValue)
    decreases j
  {
    match j
    case JArr(items) => forall k :: 0 <= k < |items| ==> Normalized(items[k])
    case JObj(entries) =>
      StringOrder.SortedEntries(entries) && forall k :: 0 <= k < |entries| ==> Normalized(entries[k].1)
    case _ => true
  }

  /** Reading JSON text into a `serde_json::Value`: every object is rebuilt by inserting its
      entries in text order, so a later duplicate key replaces an earlier one. */
  function Normalize(j: JValue): JValue
    decreases j, 1
  {
    match j
    case JArr(items) => JArr(NormalizeItems(j, items))
    case JObj(entries) => JObj(NormalizeEntries(j, entries))
    case _ => j
  }

  function NormalizeItems(ghost parent: JValue, items: seq<JValue>): (r: seq<JValue>)
    requires forall k :: 0 <= k < |items| ==> items[k] < parent
    ensures |r| == |items|
    decreases parent, 0, |items|
  {
    if |items| == 0 then [] else [Normalize(items[0])] + NormalizeItems(parent, items[1..])
  }

  function NormalizeEntries(ghost parent: JValue, entries: seq<(string, JValue)>): (r: seq<(string, JValue)>)
    requires forall k :: 0 <= k < |entries| ==> entries[k].1 < parent
    ensures StringOrder.SortedEntries(r)
    decreases parent, 0, |entries|
  {
    if |entries| == 0 then []
    else
      var last := entries[|entries| - 1];
      StringOrder.Insert(NormalizeEntries(parent, entries[..|entries| - 1]), last.0, Normalize(last.1))
  }

  /** Reading always yields a normalized value. */
  lemma {:induction false} NormalizeIsNormalized(j: JValue)
    ensures Normalized(Normalize(j))
    decreases j, 1
  {
    match j
    case JArr(items) => NormalizeItemsNormalized(j, items);
    case JObj(entries) => NormalizeEntriesNormalized(j, entries);
    case _ =>
  }

  lemma {:induction false} NormalizeItemsNormalized(parent: JValue, items: seq<JValue>)
    requires forall k :: 0 <= k < |items| ==> items[k] < parent
    ensures forall k :: 0 <= k < |items| ==> Normalized(NormalizeItems(parent, items)[k])
    decreases parent, 0, |items|
  {
    if |items| > 0 {
      NormalizeIsNormalized(items[0]);
      NormalizeItemsNormalized(parent, items[1..]);
    }
  }

  lemma {:induction false} NormalizeEntriesNormalized(parent: JValue, entries: seq<(string, JValue)>)
    requires forall k :: 0 <= k < |entries| ==> entries[k].1 < parent
    ensures forall k :: 0 <= k < |NormalizeEntries(parent, entries)| ==>
      Normalized(NormalizeEntries(parent, entries)[k].1)
    decreases parent, 0, |entries|
  {
    if |entries| > 0 {
      var init := entries[..|entries| - 1];
      var last := entries[|entries| - 1];
      NormalizeEntriesNormalized(parent, init);
      NormalizeIsNormalized(last.1);
      var prev := NormalizeEntries(parent, init);
      var r := NormalizeEntries(parent, entries);
      forall k | 0 <= k < |r| ensures Normalized(r[k].1) {
        if r[k].0 != last.0 {
          assert r[k] in prev;
        }
      }
    }
  }

  /** A value already in normal form reads back as itself. */
  lemma {:induction false} NormalizeFixed(j: JValue)
    requires Normalized(j)
    ensures Normalize(j) == j
    decreases j, 1
  {
    match j
    case JArr(items) => NormalizeItemsFixed(j, items);
    case JObj(entries) => NormalizeEntriesFixed(j, entries);
    case _ =>
  }

  lemma {:induction false} NormalizeItemsFixed(parent: JValue, items: seq<JValue>)
    requires forall k :: 0 <= k < |items| ==> items[k] < parent && Normalized(items[k])
    ensures NormalizeItems(parent, items) == items
    decreases parent, 0, |items|
  {
    if |items| > 0 {
      NormalizeFixed(items[0]);
      NormalizeItemsFixed(parent, items[1..]);
      assert [items[0]] + items[1..] == items;
    }
  }

  lemma {:induction false} NormalizeEntriesFixed(parent: JValue, entries: seq<(string, JValue)>)
    requires forall k :: 0 <= k < |entries| ==> entries[k].1 < parent && Normalized(entries[k].1)
    requires StringOrder.SortedEntries(entries)
    ensures NormalizeEntries(parent, entries) == entries
    decreases parent, 0, |entries|
  {
    if |entries| > 0 {
      var init := entries[..|entries| - 1];
      var last := entries[|entries| - 1];
      NormalizeEntriesFixed(parent, init);
      NormalizeFixed(last.1);
      StringOrder.InsertAbove(init, last.0, last.1);
      assert init + [last] == entries;
    }
  }
}
