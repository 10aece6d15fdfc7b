/** Rust's `Ord` on `String`: lexicographic by code point. BTreeMap keys are visited in this
    order, which decides the order of a serialized map's entries. */
module StringOrder {
  import opened Wrappers


  /** a sorts strictly before b. */
  predicate Less(a: string, b: string)
    decreases |a|
  {
    |b| > 0 && (|a| == 0 || a[0] < b[0] || (a[0] == b[0] && Less(a[1..], b[1..])))
  }

  lemma {:induction false} LessIrreflexive(a: string)
    ensures !Less(a, a)
    decreases |a|
  {
    if |a| > 0 { LessIrreflexive(a[1..]); }
  }

  lemma {:induction false} LessTransitive(a: string, b: string, c: string)
    requires Less(a, b) && Less(b, c)
    ensures Less(a, c)
    decreases |a|
  {
    if |a| > 0 && a[0] == b[0] && b[0] == c[0] {
      LessTransitive(a[1..], b[1..], c[1..]);
    }
  }

  lemma {:induction false} LessTotal(a: string, b: string)
    ensures a == b || Less(a, b) || Less(b, a)
    decreases |a|
  {
    if |a| > 0 && |b| > 0 && a[0] == b[0] {
      LessTotal(a[1..], b[1..]);
      if a[1..] == b[1..] {
        assert a == [a[0]] + a[1..] && b == [b[0]] + b[1..];
      }
    }
  }

  /** Entries with strictly ascending keys: the order in which a `BTreeMap<String, _>` is
      visited, with each key once. */
  predicate SortedEntries<V>(entries: seq<(string, V)>) {
    forall i, j :: 0 <= i < j < |entries| ==> Less(entries[i].0, entries[j].0)
  }

  /** `BTreeMap::insert`: replaces the value of an existing key in place, or adds the key at
      its place in the order. */
  function Insert<V(==)>(entries: seq<(string, V)>, key: string, value: V): (r: seq<(string, V)>)
    requires SortedEntries(entries)
    ensures SortedEntries(r)
    ensures (key, value) in r
    ensures forall i :: 0 <= i < |r| && r[i].0 != key ==> r[i] in entries
    ensures forall i :: 0 <= i < |entries| && entries[i].0 != key ==> entries[i] in r
    ensures forall i :: 0 <= i < |r| && r[i].0 == key ==> r[i].1 == value
    decreases |entries|
  {
    if |entries| == 0 then [(key, value)]
    else if entries[0].0 == key then
      LessIrreflexive(key);
      [(key, value)] + entries[1..]
    else if Less(key, entries[0].0) then
      assert forall j :: 0 < j < |entries| ==> Less(key, entries[j].0) by {
        forall j | 0 < j < |entries| ensures Less(key, entries[j].0) {
          LessTransitive(key, entries[0].0, entries[j].0);
        }
      }
      LessIrreflexive(key);
      [(key, value)] + entries
    else
      LessTotal(key, entries[0].0);
      var rest := Insert(entries[1..], key, value);
      assert forall i :: 0 <= i < |rest| ==> Less(entries[0].0, rest[i].0) by {
        forall i | 0 <= i < |rest| ensures Less(entries[0].0, rest[i].0) {
          if rest[i].0 != key {
            assert rest[i] in rest;
            assert rest[i] in entries[1..];
          }
        }
      }
      [entries[0]] + rest
  }

  /** Inserting a key above every present key appends it. */
  lemma {:induction false} InsertAbove<V>(entries: seq<(string, V)>, key: string, value: V)
    requires SortedEntries(entries)
    requires forall i :: 0 <= i < |entries| ==> Less(entries[i].0, key)
    ensures Insert(entries, key, value) == entries + [(key, value)]
    decreases |entries|
  {
    if |entries| > 0 {
      LessIrreflexive(key);
      assert entries[0].0 != key;
      if Less(key, entries[0].0) {
        LessTransitive(key, entries[0].0, key);
        assert false;
      }
      InsertAbove(entries[1..], key, value);
      assert [entries[0]] + (entries[1..] + [(key, value)]) == entries + [(key, value)];
    }
  }

  /** `map.get(key)`: the value stored under the key, if any. */
  function Lookup<V>(entries: seq<(string, V)>, key: string): (r: Option<V>)
    ensures r.Some? ==> (key, r.value) in entries
    ensures r.None? ==> forall i :: 0 <= i < |entries| ==> entries[i].0 != key
    decreases |entries|
  {
    if |entries| == 0 then None
    else if entries[0].0 == key then Some(entries[0].1)
    else Lookup(entries[1..], key)
  }

  /** In sorted entries each key has one value, so `Lookup` finds exactly the stored pairs. */
  lemma LookupStored<V>(entries: seq<(string, V)>, key: string, value: V)
    requires SortedEntries(entries)
    ensures Lookup(entries, key) == Some(value) <==> (key, value) in entries
  {
    if (key, value) in entries {
      var i :| 0 <= i < |entries| && entries[i] == (key, value);
      var r := Lookup(entries, key);
      var j :| 0 <= j < |entries| && entries[j] == (key, r.value);
      if i < j {
        LessIrreflexive(key);
      } else if j < i {
        LessIrreflexive(key);
      }
    }
  }

  /** An insert stores its value under its key and leaves every other key as it was. */
  lemma InsertLookup<V>(entries: seq<(string, V)>, key: string, value: V, other: string)
    requires SortedEntries(entries)
    ensures Lookup(Insert(entries, key, value), key) == Some(value)
    ensures other != key ==> Lookup(Insert(entries, key, value), other) == Lookup(entries, other)
  {
    var r := Insert(entries, key, value);
    LookupStored(r, key, value);
    if other != key {
      match Lookup(entries, other)
      case Some(v) =>
        LookupStored(entries, other, v);
        LookupStored(r, other, v);
      case None =>
        if Lookup(r, other).Some? {
          LookupStored(r, other, Lookup(r, other).value);
        }
    }
  }
}
