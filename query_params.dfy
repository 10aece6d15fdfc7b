/** The query parameters the list and search options hold: a `HashMap<&str, String>` that
    setters insert into, serialized with `form_urlencoded` when it is not empty. */
module QueryParams {
  import opened Wrappers
  import StringOrder
  import UrlEncoding
  import Text

  /** The map, as its entries in the order serialization visits them. A hash map fixes no
      order; the model uses ascending keys, which is one of the orders it may take. */
  type Params = seq<(string, string)>

  /** Each key once, keys ascending. */
  predicate Valid(p: Params) {
    StringOrder.SortedEntries(p)
  }

  /** `params.insert(key, value)`: stores the value under the key, replacing an earlier one. */
  function Insert(p: Params, key: string, value: string): (r: Params)
    requires Valid(p)
    ensures Valid(r)
    ensures Lookup(r, key) == Some(value)
    ensures forall other :: other != key ==> Lookup(r, other) == Lookup(p, other)
  {
    var r := StringOrder.Insert(p, key, value);
    forall other ensures Lookup(r, key) == Some(value) && (other != key ==> Lookup(r, other) == Lookup(p, other)) {
      StringOrder.InsertLookup(p, key, value, other);
    }
    r
  }

  /** `params.get(key)`. */
  function Lookup(p: Params, key: string): Option<string> {
    StringOrder.Lookup(p, key)
  }

  /** `serialize`: `None` exactly when no parameter is set, otherwise the `&`-separated
      `key=value` pairs, form-encoded. */
  function Serialize(p: Params): (r: Option<string>)
    ensures r.None? <==> |p| == 0
    ensures r.Some? ==> r.value == UrlEncoding.FormPairs(p) && |r.value| > 0
  {
    if |p| == 0 then None else Some(UrlEncoding.FormPairs(p))
  }

  /** A list URI: the path and the serialized options joined by "?", or the bare path when no
      option is set. */
  function WithQuery(path: string, p: Params): (uri: string)
    ensures Serialize(p).None? ==> uri == path
    ensures Serialize(p).Some? ==> uri == path + "?" + Serialize(p).value
  {
    match Serialize(p)
    case Some(query) =>
      Text.JoinTwo(path, query, "?");
      Text.Join([path, query], "?")
    case None => Text.Join([path], "?")
  }

  /** A single parameter serializes to its one pair, whatever the order. */
  lemma SerializeOne(key: string, value: string)
    ensures Serialize(Insert([], key, value)) == Some(UrlEncoding.FormPair(key, value))
  {
    UrlEncoding.FormPairsOne(key, value);
  }

  /** A single parameter of letters, digits and `*-._` serializes as `key=value`. */
  lemma SerializeSafeOne(key: string, value: string)
    requires forall i :: 0 <= i < |key| ==> UrlEncoding.FormSafeChar(key[i])
    requires forall i :: 0 <= i < |value| ==> UrlEncoding.FormSafeChar(value[i])
    ensures Serialize(Insert([], key, value)) == Some(key + "=" + value)
  {
    SerializeOne(key, value);
    UrlEncoding.FormEncodeSafe(key);
    UrlEncoding.FormEncodeSafe(value);
  }

  /** A list of safe names joined by commas, as the list-valued options store it, is sent with
      each comma written as `%2C` and the names unchanged. */
  lemma {:induction false} FormEncodeCommaList(parts: seq<string>)
    requires forall n, i :: 0 <= n < |parts| && 0 <= i < |parts[n]| ==> UrlEncoding.FormSafeChar(parts[n][i])
    ensures UrlEncoding.FormEncode(Text.Join(parts, ",")) == Text.Join(parts, "%2C")
    decreases |parts|
  {
    if |parts| == 0 {
      UrlEncoding.FormEncodeSafe("");
    } else if |parts| == 1 {
      UrlEncoding.FormEncodeSafe(parts[0]);
    } else {
      var init, last := parts[..|parts| - 1], parts[|parts| - 1];
      FormEncodeCommaList(init);
      UrlEncoding.FormEncodeComma(Text.Join(init, ","), last);
      UrlEncoding.FormEncodeSafe(last);
    }
  }

  /** Setting the same key twice keeps only the later value. */
  lemma InsertTwice(p: Params, key: string, first: string, second: string)
    requires Valid(p)
    ensures Insert(Insert(p, key, first), key, second) == Insert(p, key, second)
  {
    var a, b := Insert(Insert(p, key, first), key, second), Insert(p, key, second);
    forall k ensures Lookup(a, k) == Lookup(b, k) {
    }
    SameLookupsSame(a, b);
  }

  /** Two valid parameter maps that agree on every key are the same list. */
  lemma {:induction false} SameLookupsSame(a: Params, b: Params)
    requires Valid(a) && Valid(b)
    requires forall k :: Lookup(a, k) == Lookup(b, k)
    ensures a == b
    decreases |a| + |b|
  {
    if |a| > 0 && |b| > 0 {
      assert a[0] in a && b[0] in b;
      StringOrder.LookupStored(a, a[0].0, a[0].1);
      StringOrder.LookupStored(b, b[0].0, b[0].1);
      assert Lookup(b, a[0].0) == Lookup(a, a[0].0) && Lookup(a, b[0].0) == Lookup(b, b[0].0);
      StringOrder.LookupStored(b, a[0].0, a[0].1);
      StringOrder.LookupStored(a, b[0].0, b[0].1);
      var i :| 0 <= i < |b| && b[i] == a[0];
      var j :| 0 <= j < |a| && a[j] == b[0];
      if i > 0 && j > 0 {
        StringOrder.LessTransitive(a[0].0, a[j].0, a[0].0);
        StringOrder.LessIrreflexive(a[0].0);
      } else if i > 0 {
        StringOrder.LessIrreflexive(a[0].0);
      } else if j > 0 {
        StringOrder.LessIrreflexive(b[0].0);
      }
      assert a[0] == b[0];
      TailLacksHead(a);
      TailLacksHead(b);
      forall k ensures Lookup(a[1..], k) == Lookup(b[1..], k) {
        assert Lookup(a, k) == Lookup(b, k);
      }
      SameLookupsSame(a[1..], b[1..]);
      assert a == [a[0]] + a[1..] && b == [b[0]] + b[1..];
    } else {
      var k := if |a| > 0 then a[0].0 else if |b| > 0 then b[0].0 else "";
      assert Lookup(a, k) == Lookup(b, k);
    }
  }

  /** The first key of a valid map does not occur again after it. */
  lemma TailLacksHead(a: Params)
    requires Valid(a) && |a| > 0
    ensures Lookup(a[1..], a[0].0) == None
  {
    StringOrder.LessIrreflexive(a[0].0);
    assert forall i :: 0 <= i < |a[1..]| ==> a[1..][i].0 != a[0].0 by {
      forall i | 0 <= i < |a[1..]| ensures a[1..][i].0 != a[0].0 {
        assert a[1..][i] == a[i + 1];
      }
    }
  }
}
