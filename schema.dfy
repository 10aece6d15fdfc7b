/** What `#[derive(Serialize, Deserialize)]` does for the crate's records, as one generic codec
    driven by a description of each Rust type. A struct is a list of fields, each with its wire
    name (after `rename`), its type, whether it is an `Option`, and its `skip_serializing_if`.
    Decoding follows serde_json's derived visitors: unknown keys are ignored, a field given twice
    is an error, an absent or `null` `Option` field is `None`, an absent non-`Option` field is an
    error. Encoding writes the fields in declaration order. */
module Schema {
  import opened Wrappers
  import opened Json
  import Bytes
  import Base64
  import StringOrder

  /** The `skip_serializing_if` of a field: never, `Option::is_none`, or `String::is_empty`. */
  datatype Skip = Never | IfNone | IfEmpty

  /** The Rust type of a value, as far as its JSON form goes. */
  datatype Kind =
    | KStr                     // String
    | KBool                    // bool
    | KUInt(bound: nat)        // u8, u32, u64: 0 <= i < bound
    | KInt(bound: nat)         // i32, i64: -bound <= i < bound
    | KFloat                   // f64, on integral JSON numbers only
    | KAny                     // serde_json::Value
    | KBase64                  // DecodedContents
    | KTag(tags: seq<string>)  // an enum of unit variants, by wire string; no fallback variant
    | KList(elem: Kind)        // Vec<T>
    | KMap(elem: Kind)         // HashMap<String, T> or BTreeMap<String, T>
    | KRec(fields: seq<Field>) // a struct

  datatype Field = Field(wire: string, kind: Kind, optional: bool, skip: Skip)

  /** A plain field of type `T`. */
  function Req(wire: string, kind: Kind): Field { Field(wire, kind, false, Never) }

  /** A field of type `Option<T>`, written as `null` when `None`. */
  function Opt(wire: string, kind: Kind): Field { Field(wire, kind, true, Never) }

  /** A field of type `Option<T>` with `skip_serializing_if = "Option::is_none"`. */
  function OptSkip(wire: string, kind: Kind): Field { Field(wire, kind, true, IfNone) }

  const U8 := KUInt(0x100)
  const U32 := KUInt(0x1_0000_0000)
  const U64 := KUInt(0x1_0000_0000_0000_0000)
  const I32 := KInt(0x8000_0000)
  const I64 := KInt(0x8000_0000_0000_0000)

  /** A decoded Rust value. A struct holds one slot per declared field, in declaration order;
      a map holds its entries in ascending key order, one per key. */
  datatype Val =
    | VStr(s: string)
    | VBool(b: bool)
    | VInt(i: int)
    | VAny(j: JValue)
    | VBytes(bytes: seq<Bytes.byte>)
    | VTag(tag: string)
    | VList(items: seq<Val>)
    | VMap(entries: seq<(string, Val)>)
    | VRec(slots: seq<Option<Val>>)

  datatype DecodeError =
    | InvalidType
    | InvalidValue
    | MissingField(field: string)
    | DuplicateField(field: string)
    | UnknownVariant(tag: string)
    | NoVariantMatches(name: string)  // an untagged enum none of whose variants fits

  /** The values of a Rust `u64`. */
  type Uint64 = x: nat | x < 0x1_0000_0000_0000_0000

  /** The values of a Rust `u32`. */
  type Uint32 = x: nat | x < 0x1_0000_0000

  /** How often a key occurs among an object's entries. */
  datatype Found = Absent | Once(value: JValue) | Repeated

  /** key occurs at index i of the entries and nowhere else. */
  predicate OnlyAt(entries: seq<(string, JValue)>, key: string, i: nat) {
    i < |entries| && entries[i].0 == key &&
    forall k :: 0 <= k < |entries| && k != i ==> entries[k].0 != key
  }

  function Occurrences(entries: seq<(string, JValue)>, key: string): Found
    decreases |entries|
  {
    if |entries| == 0 then Absent
    else
      var rest := Occurrences(entries[1..], key);
      if entries[0].0 != key then rest
      else if rest.Absent? then Once(entries[0].1)
      else Repeated
  }

  /** A key is absent when no entry has it, occurs once when exactly one entry has it, and is
      repeated when two entries have it. */
  lemma {:induction false} OccurrencesMeaning(entries: seq<(string, JValue)>, key: string)
    ensures Occurrences(entries, key).Absent? <==> key !in Keys(entries)
    ensures Occurrences(entries, key).Once? ==>
      exists i: nat :: OnlyAt(entries, key, i) && entries[i].1 == Occurrences(entries, key).value
    ensures Occurrences(entries, key).Repeated? ==>
      exists i, k :: 0 <= i < k < |entries| && entries[i].0 == key && entries[k].0 == key
    decreases |entries|
  {
    if |entries| > 0 {
      var rest := Occurrences(entries[1..], key);
      OccurrencesMeaning(entries[1..], key);
      assert forall k :: 0 < k < |entries| ==> entries[k].0 == Keys(entries[1..])[k - 1];
      if entries[0].0 != key {
        if rest.Once? {
          var i: nat :| OnlyAt(entries[1..], key, i) && entries[1..][i].1 == rest.value;
          assert OnlyAt(entries, key, i + 1);
        } else if rest.Repeated? {
          var i, k :| 0 <= i < k < |entries[1..]| && entries[1..][i].0 == key && entries[1..][k].0 == key;
          assert entries[i + 1].0 == key && entries[k + 1].0 == key;
        }
      } else if rest.Absent? {
        assert OnlyAt(entries, key, 0);
      } else {
        var i :| 0 <= i < |entries[1..]| && Keys(entries[1..])[i] == key;
        assert entries[i + 1].0 == key;
      }
    }
  }

  function Decode(k: Kind, j: JValue): Result<Val, DecodeError>
    decreases k, 1
  {
    match k
    case KStr => if j.JStr? then Ok(VStr(j.s)) else Err(InvalidType)
    case KBool => if j.JBool? then Ok(VBool(j.b)) else Err(InvalidType)
    case KUInt(bound) =>
      if !j.JInt? then Err(InvalidType)
      else if 0 <= j.i < bound then Ok(VInt(j.i))
      else Err(InvalidValue)
    case KInt(bound) =>
      if !j.JInt? then Err(InvalidType)
      else if -(bound as int) <= j.i < bound then Ok(VInt(j.i))
      else Err(InvalidValue)
    case KFloat => if j.JInt? then Ok(VInt(j.i)) else Err(InvalidType)
    case KAny => Ok(VAny(Normalize(j)))
    case KBase64 =>
      if !j.JStr? then Err(InvalidType)
      else
        var bytes := Base64.DecodeWrapped(j.s);
        if bytes.Some? then Ok(VBytes(bytes.value)) else Err(InvalidValue)
    case KTag(tags) =>
      if !j.JStr? then Err(InvalidType)
      else
        if j.s in tags then Ok(VTag(j.s)) else Err(UnknownVariant(j.s))
    case KList(_) =>
      if !j.JArr? then Err(InvalidType)
      else
        var items :- DecodeItems(k, j.items);
        Ok(VList(items))
    case KMap(_) =>
      if !j.JObj? then Err(InvalidType)
      else
        var entries :- DecodeEntries(k, j.entries);
        Ok(VMap(entries))
    case KRec(_) =>
      if !j.JObj? then Err(InvalidType)
      else
        var slots :- DecodeFields(k, j.entries, 0);
        Ok(VRec(slots))
  }

  function DecodeItems(k: Kind, items: seq<JValue>): (r: Result<seq<Val>, DecodeError>)
    requires k.KList?
    ensures r.Ok? ==> |r.value| == |items|
    decreases k, 0, |items|
  {
    if |items| == 0 then Ok([])
    else
      var head :- Decode(k.elem, items[0]);
      var tail :- DecodeItems(k, items[1..]);
      Ok([head] + tail)
  }

  /** The entries are inserted in text order, so the last of several equal keys wins. */
  function DecodeEntries(k: Kind, entries: seq<(string, JValue)>): (r: Result<seq<(string, Val)>, DecodeError>)
    requires k.KMap?
    ensures r.Ok? ==> StringOrder.SortedEntries(r.value)
    decreases k, 0, |entries|
  {
    if |entries| == 0 then Ok([])
    else
      var last := entries[|entries| - 1];
      var init :- DecodeEntries(k, entries[..|entries| - 1]);
      var value :- Decode(k.elem, last.1);
      Ok(StringOrder.Insert(init, last.0, value))
  }

  function DecodeFields(k: Kind, entries: seq<(string, JValue)>, i: nat): (r: Result<seq<Option<Val>>, DecodeError>)
    requires k.KRec? && i <= |k.fields|
    ensures r.Ok? ==> |r.value| == |k.fields| - i
    decreases k, 0, |k.fields| - i
  {
    if i == |k.fields| then Ok([])
    else
      var slot :- DecodeSlot(k.fields[i], entries);
      var rest :- DecodeFields(k, entries, i + 1);
      Ok([slot] + rest)
  }

  /** One field of a struct read from the object's entries. */
  function DecodeSlot(f: Field, entries: seq<(string, JValue)>): Result<Option<Val>, DecodeError>
    decreases f.kind, 2
  {
    match Occurrences(entries, f.wire)
    case Repeated => Err(DuplicateField(f.wire))
    case Absent => if f.optional then Ok(None) else Err(MissingField(f.wire))
    case Once(j) =>
      if f.optional && j == JNull then Ok(None)
      else
        var v :- Decode(f.kind, j);
        Ok(Some(v))
  }

  function Encode(k: Kind, v: Val): JValue
    decreases k, 1
  {
    match (k, v)
    case (KStr, VStr(s)) => JStr(s)
    case (KBool, VBool(b)) => JBool(b)
    case (KUInt(_), VInt(i)) => JInt(i)
    case (KInt(_), VInt(i)) => JInt(i)
    case (KFloat, VInt(i)) => JInt(i)
    case (KAny, VAny(j)) => j
    case (KBase64, VBytes(bytes)) => JStr(Base64.Encode(bytes))
    case (KTag(_), VTag(tag)) => JStr(tag)
    case (KList(_), VList(items)) => JArr(EncodeItems(k, items))
    case (KMap(_), VMap(entries)) => JObj(EncodeEntries(k, entries))
    case (KRec(_), VRec(slots)) => JObj(EncodeFields(k, slots, 0))
    case _ => JNull
  }

  function EncodeItems(k: Kind, items: seq<Val>): (r: seq<JValue>)
    requires k.KList?
    ensures |r| == |items|
    decreases k, 0, |items|
  {
    if |items| == 0 then [] else [Encode(k.elem, items[0])] + EncodeItems(k, items[1..])
  }

  function EncodeEntries(k: Kind, entries: seq<(string, Val)>): (r: seq<(string, JValue)>)
    requires k.KMap?
    ensures |r| == |entries|
    ensures forall i :: 0 <= i < |entries| ==> r[i].0 == entries[i].0
    decreases k, 0, |entries|
  {
    if |entries| == 0 then []
    else
      var last := entries[|entries| - 1];
      EncodeEntries(k, entries[..|entries| - 1]) + [(last.0, Encode(k.elem, last.1))]
  }

  /** The entries a struct writes for its fields from the i-th on. */
  function EncodeFields(k: Kind, slots: seq<Option<Val>>, i: nat): seq<(string, JValue)>
    requires k.KRec? && i <= |k.fields|
    decreases k, 0, |k.fields| - i
  {
    if i == |k.fields| then []
    else EncodeSlot(k.fields[i], if i < |slots| then slots[i] else None) + EncodeFields(k, slots, i + 1)
  }

  /** The entry one field writes: nothing when it is skipped, `null` for an unskipped `None`. */
  function EncodeSlot(f: Field, slot: Option<Val>): seq<(string, JValue)>
    decreases f.kind, 2
  {
    match slot
    case None => if f.skip == IfNone then [] else [(f.wire, JNull)]
    case Some(v) => if f.skip == IfEmpty && v == VStr("") then [] else [(f.wire, Encode(f.kind, v))]
  }

  /** A type description the derived codec can round-trip: enum tags and field names are
      distinct, no field is skipped when empty, and only `Option` fields are skipped when
      `None`. */
  predicate WellFormed(k: Kind)
    decreases k
  {
    match k
    case KList(elem) => WellFormed(elem)
    case KMap(elem) => WellFormed(elem)
    case KRec(fields) =>
      (forall i, j :: 0 <= i < j < |fields| ==> fields[i].wire != fields[j].wire) &&
      forall i :: 0 <= i < |fields| ==>
        fields[i].skip != IfEmpty && (fields[i].skip == IfNone ==> fields[i].optional) &&
        WellFormed(fields[i].kind)
    case _ => true
  }

  /** v is a value of type k that the derived decoder can produce. */
  predicate Conforms(k: Kind, v: Val)
    decreases k, 0
  {
    match (k, v)
    case (KStr, VStr(_)) => true
    case (KBool, VBool(_)) => true
    case (KUInt(bound), VInt(i)) => 0 <= i < bound
    case (KInt(bound), VInt(i)) => -(bound as int) <= i < bound
    case (KFloat, VInt(_)) => true
    case (KAny, VAny(j)) => Normalized(j)
    case (KBase64, VBytes(_)) => true
    case (KTag(tags), VTag(tag)) => tag in tags
    case (KList(elem), VList(items)) => forall i :: 0 <= i < |items| ==> Conforms(elem, items[i])
    case (KMap(elem), VMap(entries)) =>
      StringOrder.SortedEntries(entries) && forall i :: 0 <= i < |entries| ==> Conforms(elem, entries[i].1)
    case (KRec(fields), VRec(slots)) =>
      |slots| == |fields| &&
      forall i :: 0 <= i < |fields| ==> SlotConforms(fields[i], slots[i])
    case _ => false
  }

  /** A field's slot: `None` only for an `Option` field, and for an `Option` field never a
      `Some` that would be written as `null`. */
  predicate SlotConforms(f: Field, slot: Option<Val>)
    decreases f.kind, 1
  {
    match slot
    case None => f.optional
    case Some(v) => Conforms(f.kind, v) && (f.optional ==> v != VAny(JNull))
  }

  /** The key occurrences a one-entry-or-empty block followed by more entries has. */
  function FoundIn(block: seq<(string, JValue)>): Found {
    if |block| == 0 then Absent else Once(block[0].1)
  }

  /** A key that exactly one entry has occurs once, with that entry's value. */
  lemma {:induction false} OccurrencesUnique(entries: seq<(string, JValue)>, n: nat)
    requires n < |entries|
    requires forall m :: 0 <= m < |entries| && m != n ==> entries[m].0 != entries[n].0
    ensures Occurrences(entries, entries[n].0) == Once(entries[n].1)
    decreases |entries|
  {
    var key, rest := entries[n].0, entries[1..];
    if n == 0 {
      OccurrencesMeaning(rest, key);
      assert key !in Keys(rest) by {
        forall m | 0 <= m < |rest| ensures rest[m].0 != key {
          assert rest[m] == entries[m + 1];
        }
      }
    } else {
      forall m | 0 <= m < |rest| && m != n - 1 ensures rest[m].0 != rest[n - 1].0 {
        assert rest[m] == entries[m + 1];
      }
      OccurrencesUnique(rest, n - 1);
    }
  }

  lemma OccurrencesCons(e: (string, JValue), rest: seq<(string, JValue)>, key: string)
    ensures Occurrences([e] + rest, key) ==
      if e.0 != key then Occurrences(rest, key)
      else if Occurrences(rest, key).Absent? then Once(e.1)
      else Repeated
  {
    assert ([e] + rest)[1..] == rest;
  }

  /** What an `Option<String>` field skipped when `None` writes, as `EncodedField` gives it. */
  lemma EncodedStrField(k: Kind, slots: seq<Option<Val>>, n: nat, s: Option<string>)
    requires k.KRec? && n < |k.fields| && n < |slots| && k.fields[n] == OptSkip(k.fields[n].wire, KStr)
    requires slots[n] == OptStrVal(s)
    requires forall a, b :: 0 <= a < b < |k.fields| ==> k.fields[a].wire != k.fields[b].wire
    ensures Occurrences(Encode(k, VRec(slots)).entries, k.fields[n].wire) == StrFound(s)
  {
    EncodedField(k, slots, n);
  }

  lemma EncodedBoolField(k: Kind, slots: seq<Option<Val>>, n: nat, b: Option<bool>)
    requires k.KRec? && n < |k.fields| && n < |slots| && k.fields[n] == OptSkip(k.fields[n].wire, KBool)
    requires slots[n] == OptBoolVal(b)
    requires forall a, b :: 0 <= a < b < |k.fields| ==> k.fields[a].wire != k.fields[b].wire
    ensures Occurrences(Encode(k, VRec(slots)).entries, k.fields[n].wire) == BoolFound(b)
  {
    EncodedField(k, slots, n);
  }

  lemma EncodedIntField(k: Kind, slots: seq<Option<Val>>, n: nat, i: Option<int>)
    requires k.KRec? && n < |k.fields| && n < |slots| && k.fields[n].skip == IfNone
    requires k.fields[n].kind.KInt? || k.fields[n].kind.KUInt?
    requires slots[n] == OptIntVal(i)
    requires forall a, b :: 0 <= a < b < |k.fields| ==> k.fields[a].wire != k.fields[b].wire
    ensures Occurrences(Encode(k, VRec(slots)).entries, k.fields[n].wire) == IntFound(i)
  {
    EncodedField(k, slots, n);
  }

  /** A record whose first field is a required string writes that field first. */
  lemma EncodeFirstString(k: Kind, slots: seq<Option<Val>>, wire: string, s: string)
    requires k.KRec? && |k.fields| > 0 && k.fields[0] == Req(wire, KStr) && |slots| > 0 && slots[0] == Some(VStr(s))
    ensures Encode(k, VRec(slots)).JObj? && |Encode(k, VRec(slots)).entries| > 0
    ensures Encode(k, VRec(slots)).entries[0] == (wire, JStr(s))
  {
    assert Encode(KStr, VStr(s)) == JStr(s);
    assert EncodeSlot(k.fields[0], slots[0]) == [(wire, JStr(s))];
    assert EncodeFields(k, slots, 0) == [(wire, JStr(s))] + EncodeFields(k, slots, 1);
  }

  /** A record whose first field is a required string and whose other fields are all `None`
      and skipped when `None` writes that field alone. */
  lemma EncodeOnlyFirstString(k: Kind, slots: seq<Option<Val>>, wire: string, s: string)
    requires k.KRec? && |k.fields| > 0 && k.fields[0] == Req(wire, KStr) && |slots| > 0 && slots[0] == Some(VStr(s))
    requires forall n :: 1 <= n < |k.fields| ==> k.fields[n].skip == IfNone && (n < |slots| ==> slots[n] == None)
    ensures Encode(k, VRec(slots)) == JObj([(wire, JStr(s))])
  {
    EncodeFieldsSkipped(k, slots, 1);
    assert Encode(KStr, VStr(s)) == JStr(s);
    assert EncodeSlot(k.fields[0], slots[0]) == [(wire, JStr(s))];
    assert EncodeFields(k, slots, 0) == [(wire, JStr(s))] + EncodeFields(k, slots, 1);
  }

  /** Fields from the i-th on that are all `None` and all skipped when `None` write nothing. */
  lemma {:induction false} EncodeFieldsSkipped(k: Kind, slots: seq<Option<Val>>, i: nat)
    requires k.KRec? && i <= |k.fields|
    requires forall n :: i <= n < |k.fields| ==> k.fields[n].skip == IfNone && (n < |slots| ==> slots[n] == None)
    ensures EncodeFields(k, slots, i) == []
    decreases |k.fields| - i
  {
    if i < |k.fields| {
      EncodeFieldsSkipped(k, slots, i + 1);
    }
  }

  /** A field's encoded entry carries the field's own wire name. */
  lemma EncodeSlotWire(f: Field, slot: Option<Val>)
    ensures |EncodeSlot(f, slot)| <= 1
    ensures forall n :: 0 <= n < |EncodeSlot(f, slot)| ==> EncodeSlot(f, slot)[n].0 == f.wire
  {
  }

  /** A wire name that no field from the i-th on uses does not occur in their entries. */
  lemma {:induction false} EncodeFieldsAbsent(k: Kind, slots: seq<Option<Val>>, i: nat, key: string)
    requires k.KRec? && i <= |k.fields|
    requires forall n :: i <= n < |k.fields| ==> k.fields[n].wire != key
    ensures Occurrences(EncodeFields(k, slots, i), key).Absent?
    decreases |k.fields| - i
  {
    if i < |k.fields| {
      var slot := if i < |slots| then slots[i] else None;
      EncodeFieldsAbsent(k, slots, i + 1, key);
      OccurrencesSlot(k.fields[i], slot, EncodeFields(k, slots, i + 1), key);
    }
  }

  /** How a key occurs once one field's entry is put in front of more entries. */
  lemma OccurrencesSlot(f: Field, slot: Option<Val>, rest: seq<(string, JValue)>, key: string)
    ensures Occurrences(EncodeSlot(f, slot) + rest, key) ==
      if f.wire != key || |EncodeSlot(f, slot)| == 0 then Occurrences(rest, key)
      else if Occurrences(rest, key).Absent? then Once(EncodeSlot(f, slot)[0].1)
      else Repeated
  {
    var block := EncodeSlot(f, slot);
    if |block| == 0 {
      assert block + rest == rest;
    } else {
      OccurrencesCons(block[0], rest, key);
    }
  }

  /** With distinct wire names, field n's name occurs in the struct's entries exactly as its
      own entry says. */
  lemma {:induction false} EncodeFieldsFound(k: Kind, slots: seq<Option<Val>>, i: nat, n: nat)
    requires k.KRec? && i <= n < |k.fields|
    requires forall a, b :: 0 <= a < b < |k.fields| ==> k.fields[a].wire != k.fields[b].wire
    ensures Occurrences(EncodeFields(k, slots, i), k.fields[n].wire) ==
      FoundIn(EncodeSlot(k.fields[n], if n < |slots| then slots[n] else None))
    decreases |k.fields| - i
  {
    var key := k.fields[n].wire;
    var slot := if i < |slots| then slots[i] else None;
    var rest := EncodeFields(k, slots, i + 1);
    assert EncodeFields(k, slots, i) == EncodeSlot(k.fields[i], slot) + rest;
    OccurrencesSlot(k.fields[i], slot, rest, key);
    if i == n {
      EncodeFieldsAbsent(k, slots, i + 1, key);
      assert Occurrences(rest, key) == Absent;
    } else {
      assert k.fields[i].wire != key;
      EncodeFieldsFound(k, slots, i + 1, n);
    }
  }

  /** A conforming value other than the JSON `null` itself is never written as `null`. */
  lemma EncodeNotNull(k: Kind, v: Val)
    requires Conforms(k, v) && v != VAny(JNull)
    ensures Encode(k, v) != JNull
  {
  }

  /** Decoding what the derived serializer wrote gives the value back, for every well-formed
      type and every value of that type. */
  lemma {:induction false} RoundTrip(k: Kind, v: Val)
    requires WellFormed(k) && Conforms(k, v)
    ensures Decode(k, Encode(k, v)) == Ok(v)
    decreases k, 1
  {
    match (k, v)
    case (KAny, VAny(j)) => NormalizeFixed(j);
    case (KBase64, VBytes(bytes)) => Base64.DecodeWrappedOfEncode(bytes);
    case (KList(_), VList(items)) => RoundTripItems(k, items);
    case (KMap(_), VMap(entries)) => RoundTripEntries(k, entries);
    case (KRec(_), VRec(slots)) =>
      RoundTripFields(k, slots, 0);
      assert slots[0..] == slots;
    case _ =>
  }

  lemma {:induction false} RoundTripItems(k: Kind, items: seq<Val>)
    requires k.KList? && WellFormed(k.elem)
    requires forall n :: 0 <= n < |items| ==> Conforms(k.elem, items[n])
    ensures DecodeItems(k, EncodeItems(k, items)) == Ok(items)
    decreases k, 0, |items|
  {
    if |items| > 0 {
      var encoded := EncodeItems(k, items);
      assert encoded[0] == Encode(k.elem, items[0]) && encoded[1..] == EncodeItems(k, items[1..]);
      RoundTrip(k.elem, items[0]);
      RoundTripItems(k, items[1..]);
      assert [items[0]] + items[1..] == items;
    }
  }

  lemma {:induction false} RoundTripEntries(k: Kind, entries: seq<(string, Val)>)
    requires k.KMap? && WellFormed(k.elem) && StringOrder.SortedEntries(entries)
    requires forall n :: 0 <= n < |entries| ==> Conforms(k.elem, entries[n].1)
    ensures DecodeEntries(k, EncodeEntries(k, entries)) == Ok(entries)
    decreases k, 0, |entries|
  {
    if |entries| > 0 {
      var init := entries[..|entries| - 1];
      var last := entries[|entries| - 1];
      ConformsInit(k.elem, entries, init);
      RoundTripEntries(k, init);
      RoundTrip(k.elem, last.1);
      RoundTripEntriesStep(k, init, last.0, last.1);
    }
  }

  /** The entries before the last of conforming entries conform, and stay sorted. */
  lemma ConformsInit(elem: Kind, entries: seq<(string, Val)>, init: seq<(string, Val)>)
    requires |entries| > 0 && StringOrder.SortedEntries(entries) && init == entries[..|entries| - 1]
    requires forall n :: 0 <= n < |entries| ==> Conforms(elem, entries[n].1)
    ensures StringOrder.SortedEntries(init)
    ensures forall n :: 0 <= n < |init| ==> Conforms(elem, init[n].1)
    ensures forall n :: 0 <= n < |init| ==> StringOrder.Less(init[n].0, entries[|entries| - 1].0)
    ensures Conforms(elem, entries[|entries| - 1].1)
    ensures entries == init + [(entries[|entries| - 1].0, entries[|entries| - 1].1)]
  {
    SortedInit(entries);
  }

  /** One more entry, above every earlier key, decodes to itself once the earlier ones and its
      value do. */
  lemma RoundTripEntriesStep(k: Kind, init: seq<(string, Val)>, key: string, v: Val)
    requires k.KMap? && StringOrder.SortedEntries(init)
    requires forall n :: 0 <= n < |init| ==> StringOrder.Less(init[n].0, key)
    requires DecodeEntries(k, EncodeEntries(k, init)) == Ok(init)
    requires Decode(k.elem, Encode(k.elem, v)) == Ok(v)
    ensures DecodeEntries(k, EncodeEntries(k, init + [(key, v)])) == Ok(init + [(key, v)])
  {
    var e := (key, Encode(k.elem, v));
    EncodeEntriesLast(k, init + [(key, v)]);
    assert (init + [(key, v)])[..|init|] == init;
    DecodeEntriesStep(k, EncodeEntries(k, init), e, init, v);
    StringOrder.InsertAbove(init, key, v);
  }

  /** The last entry is written after the ones before it. */
  lemma EncodeEntriesLast(k: Kind, entries: seq<(string, Val)>)
    requires k.KMap? && |entries| > 0
    ensures EncodeEntries(k, entries) ==
      EncodeEntries(k, entries[..|entries| - 1]) + [(entries[|entries| - 1].0, Encode(k.elem, entries[|entries| - 1].1))]
  {
  }

  /** Decoding one more entry inserts its decoded value into what the earlier ones gave. */
  lemma DecodeEntriesStep(k: Kind, init: seq<(string, JValue)>, e: (string, JValue), a: seq<(string, Val)>, v: Val)
    requires k.KMap? && DecodeEntries(k, init) == Ok(a) && Decode(k.elem, e.1) == Ok(v)
    ensures DecodeEntries(k, init + [e]) == Ok(StringOrder.Insert(a, e.0, v))
  {
    assert (init + [e])[..|init + [e]| - 1] == init;
  }

  /** Dropping the last entry of a sorted list leaves it sorted, below the dropped key. */
  lemma SortedInit<V>(entries: seq<(string, V)>)
    requires StringOrder.SortedEntries(entries) && |entries| > 0
    ensures StringOrder.SortedEntries(entries[..|entries| - 1])
    ensures forall n :: 0 <= n < |entries| - 1 ==> StringOrder.Less(entries[n].0, entries[|entries| - 1].0)
  {
    var init := entries[..|entries| - 1];
    forall a, b | 0 <= a < b < |init| ensures StringOrder.Less(init[a].0, init[b].0) {
      assert init[a] == entries[a] && init[b] == entries[b];
    }
  }

  lemma {:induction false} RoundTripFields(k: Kind, slots: seq<Option<Val>>, i: nat)
    requires k.KRec? && i <= |k.fields| && WellFormed(k) && Conforms(k, VRec(slots))
    ensures DecodeFields(k, EncodeFields(k, slots, 0), i) == Ok(slots[i..])
    decreases k, 0, |k.fields| - i
  {
    if i < |k.fields| {
      var entries := EncodeFields(k, slots, 0);
      var f := k.fields[i];
      EncodeFieldsFound(k, slots, 0, i);
      assert Occurrences(entries, f.wire) == FoundIn(EncodeSlot(f, slots[i]));
      assert SlotConforms(f, slots[i]) && WellFormed(f.kind);
      assert f.skip != IfEmpty && (f.skip == IfNone ==> f.optional);
      RoundTripSlot(f, slots[i], entries);
      RoundTripFields(k, slots, i + 1);
      assert [slots[i]] + slots[i + 1..] == slots[i..];
    } else {
      assert |slots| == |k.fields| && slots[i..] == [];
    }
  }

  lemma {:induction false} RoundTripSlot(f: Field, slot: Option<Val>, entries: seq<(string, JValue)>)
    requires WellFormed(f.kind) && f.skip != IfEmpty && (f.skip == IfNone ==> f.optional)
    requires SlotConforms(f, slot)
    requires Occurrences(entries, f.wire) == FoundIn(EncodeSlot(f, slot))
    ensures DecodeSlot(f, entries) == Ok(slot)
    decreases f.kind, 2
  {
    if slot.Some? {
      RoundTrip(f.kind, slot.value);
      if f.optional {
        EncodeNotNull(f.kind, slot.value);
      }
    }
  }

  /** Whatever the decoder produces is a value of the type: this is the converse partner of
      `RoundTrip`, which needs exactly such values. */
  lemma {:induction false} DecodeConforms(k: Kind, j: JValue)
    requires Decode(k, j).Ok?
    ensures Conforms(k, Decode(k, j).value)
    decreases k, 1
  {
    match k
    case KAny => NormalizeIsNormalized(j);
    case KList(_) => DecodeItemsConform(k, j.items);
    case KMap(_) => DecodeEntriesConform(k, j.entries);
    case KRec(_) => DecodeFieldsConform(k, j.entries, 0);
    case _ =>
  }

  lemma {:induction false} DecodeItemsConform(k: Kind, items: seq<JValue>)
    requires k.KList? && DecodeItems(k, items).Ok?
    ensures forall n :: 0 <= n < |items| ==> Conforms(k.elem, DecodeItems(k, items).value[n])
    decreases k, 0, |items|
  {
    if |items| > 0 {
      DecodeConforms(k.elem, items[0]);
      DecodeItemsConform(k, items[1..]);
    }
  }

  lemma {:induction false} DecodeEntriesConform(k: Kind, entries: seq<(string, JValue)>)
    requires k.KMap? && DecodeEntries(k, entries).Ok?
    ensures forall n :: 0 <= n < |DecodeEntries(k, entries).value| ==>
      Conforms(k.elem, DecodeEntries(k, entries).value[n].1)
    decreases k, 0, |entries|
  {
    if |entries| > 0 {
      var last := entries[|entries| - 1];
      var init := DecodeEntries(k, entries[..|entries| - 1]).value;
      DecodeEntriesConform(k, entries[..|entries| - 1]);
      DecodeConforms(k.elem, last.1);
      var r := DecodeEntries(k, entries).value;
      forall n | 0 <= n < |r| ensures Conforms(k.elem, r[n].1) {
        if r[n].0 != last.0 {
          assert r[n] in init;
        }
      }
    }
  }

  lemma {:induction false} DecodeFieldsConform(k: Kind, entries: seq<(string, JValue)>, i: nat)
    requires k.KRec? && i <= |k.fields| && DecodeFields(k, entries, i).Ok?
    ensures forall n :: i <= n < |k.fields| ==>
      SlotConforms(k.fields[n], DecodeFields(k, entries, i).value[n - i])
    decreases k, 0, |k.fields| - i
  {
    if i < |k.fields| {
      DecodeSlotConforms(k.fields[i], entries);
      DecodeFieldsConform(k, entries, i + 1);
    }
  }

  lemma {:induction false} DecodeSlotConforms(f: Field, entries: seq<(string, JValue)>)
    requires DecodeSlot(f, entries).Ok?
    ensures SlotConforms(f, DecodeSlot(f, entries).value)
    decreases f.kind, 2
  {
    match Occurrences(entries, f.wire)
    case Once(j) =>
      if !(f.optional && j == JNull) {
        DecodeConforms(f.kind, j);
        if f.kind == KAny && f.optional {
          assert Normalize(j) != JNull;
        }
      }
    case _ =>
  }

  /** A struct decodes exactly when every one of its fields does, and then each slot is what
      that field alone decodes to. */
  lemma {:induction false} DecodeFieldsSlots(k: Kind, entries: seq<(string, JValue)>, i: nat)
    requires k.KRec? && i <= |k.fields|
    ensures DecodeFields(k, entries, i).Ok? <==>
      forall n :: i <= n < |k.fields| ==> DecodeSlot(k.fields[n], entries).Ok?
    ensures DecodeFields(k, entries, i).Ok? ==>
      forall n :: i <= n < |k.fields| ==>
        DecodeSlot(k.fields[n], entries) == Ok(DecodeFields(k, entries, i).value[n - i])
    decreases |k.fields| - i
  {
    if i < |k.fields| {
      DecodeFieldsSlots(k, entries, i + 1);
    }
  }

  /** Decoding a struct from an object, field by field. */
  lemma DecodeRecord(k: Kind, entries: seq<(string, JValue)>)
    requires k.KRec?
    ensures Decode(k, JObj(entries)).Ok? <==>
      forall n :: 0 <= n < |k.fields| ==> DecodeSlot(k.fields[n], entries).Ok?
    ensures Decode(k, JObj(entries)).Ok? ==>
      Decode(k, JObj(entries)).value.VRec? &&
      |Decode(k, JObj(entries)).value.slots| == |k.fields| &&
      forall n :: 0 <= n < |k.fields| ==>
        DecodeSlot(k.fields[n], entries) == Ok(Decode(k, JObj(entries)).value.slots[n])
  {
    DecodeFieldsSlots(k, entries, 0);
  }

  /** A list decodes exactly when each of its items does, and then it holds what each item
      decodes to, in the same order. */
  lemma {:induction false} DecodeItemsEach(k: Kind, items: seq<JValue>)
    requires k.KList?
    ensures DecodeItems(k, items).Ok? <==> forall n :: 0 <= n < |items| ==> Decode(k.elem, items[n]).Ok?
    ensures DecodeItems(k, items).Ok? ==>
      forall n :: 0 <= n < |items| ==> DecodeItems(k, items).value[n] == Decode(k.elem, items[n]).value
    decreases |items|
  {
    if |items| > 0 {
      DecodeItemsEach(k, items[1..]);
      assert forall n :: 1 <= n < |items| ==> items[1..][n - 1] == items[n];
    }
  }

  /** An entry whose key no field uses changes nothing, wherever it stands. */
  lemma {:induction false} OccurrencesIgnore(before: seq<(string, JValue)>, e: (string, JValue),
                                              after: seq<(string, JValue)>, key: string)
    requires e.0 != key
    ensures Occurrences(before + [e] + after, key) == Occurrences(before + after, key)
    decreases |before|
  {
    if |before| == 0 {
      assert before + [e] + after == [e] + after;
      assert before + after == after;
      OccurrencesCons(e, after, key);
    } else {
      OccurrencesIgnore(before[1..], e, after, key);
      assert before + [e] + after == [before[0]] + (before[1..] + [e] + after);
      assert before + after == [before[0]] + (before[1..] + after);
      OccurrencesCons(before[0], before[1..] + [e] + after, key);
      OccurrencesCons(before[0], before[1..] + after, key);
    }
  }

  /** Keys the struct does not declare are ignored: no struct uses `deny_unknown_fields`. */
  lemma {:induction false} DecodeIgnoresUnknown(k: Kind, before: seq<(string, JValue)>, e: (string, JValue),
                                                 after: seq<(string, JValue)>)
    requires k.KRec? && forall n :: 0 <= n < |k.fields| ==> k.fields[n].wire != e.0
    ensures Decode(k, JObj(before + [e] + after)) == Decode(k, JObj(before + after))
  {
    forall n | 0 <= n < |k.fields|
      ensures DecodeSlot(k.fields[n], before + [e] + after) == DecodeSlot(k.fields[n], before + after)
    {
      OccurrencesIgnore(before, e, after, k.fields[n].wire);
    }
    DecodeFieldsSame(k, before + [e] + after, before + after, 0);
  }

  lemma {:induction false} DecodeFieldsSame(k: Kind, a: seq<(string, JValue)>, b: seq<(string, JValue)>, i: nat)
    requires k.KRec? && i <= |k.fields|
    requires forall n :: 0 <= n < |k.fields| ==> DecodeSlot(k.fields[n], a) == DecodeSlot(k.fields[n], b)
    ensures DecodeFields(k, a, i) == DecodeFields(k, b, i)
    decreases |k.fields| - i
  {
    if i < |k.fields| {
      DecodeFieldsSame(k, a, b, i + 1);
    }
  }

  /** The outcome for one field, from how often its name occurs: a repeated name is an error,
      an absent or `null` `Option` field is `None`, an absent required field is an error. */
  lemma DecodeSlotCases(f: Field, entries: seq<(string, JValue)>)
    ensures f.wire !in Keys(entries) ==>
      DecodeSlot(f, entries) == if f.optional then Ok(None) else Err(MissingField(f.wire))
    ensures Occurrences(entries, f.wire).Repeated? ==> DecodeSlot(f, entries) == Err(DuplicateField(f.wire))
    ensures f.optional && Occurrences(entries, f.wire) == Once(JNull) ==> DecodeSlot(f, entries) == Ok(None)
    ensures Occurrences(entries, f.wire).Once? && !(f.optional && Occurrences(entries, f.wire).value == JNull) ==>
      (DecodeSlot(f, entries).Ok? <==> Decode(f.kind, Occurrences(entries, f.wire).value).Ok?)
  {
    OccurrencesMeaning(entries, f.wire);
  }

  /** The n-th slot of a conforming struct value conforms to the n-th field. */
  lemma SlotOf(k: Kind, v: Val, n: nat)
    requires k.KRec? && Conforms(k, v) && n < |k.fields|
    ensures v.VRec? && |v.slots| == |k.fields| && SlotConforms(k.fields[n], v.slots[n])
  {
  }

  /** A struct's value is assembled from what each field decodes to. */
  lemma DecodeRecordOf(k: Kind, entries: seq<(string, JValue)>, slots: seq<Option<Val>>)
    requires k.KRec? && |slots| == |k.fields|
    requires forall n :: 0 <= n < |k.fields| ==> DecodeSlot(k.fields[n], entries) == Ok(slots[n])
    ensures Decode(k, JObj(entries)) == Ok(VRec(slots))
  {
    DecodeRecord(k, entries);
    var r := Decode(k, JObj(entries)).value;
    assert r.slots == slots;
  }

  /** The `Option` fields of a struct are exactly those whose wire name is in `wires`. */
  predicate OptionalExactly(k: Kind, wires: set<string>)
    requires k.KRec?
  {
    OptionalAmong(k.fields, wires)
  }

  /** The `Option` fields among `fs` are exactly those whose wire name is in `wires`. */
  predicate OptionalAmong(fs: seq<Field>, wires: set<string>) {
    forall n :: 0 <= n < |fs| ==> (fs[n].optional <==> fs[n].wire in wires)
  }

  /** Two runs of fields with their `Option` fields among `wires` make one. */
  lemma OptionalConcat(a: seq<Field>, b: seq<Field>, wires: set<string>)
    requires OptionalAmong(a, wires) && OptionalAmong(b, wires)
    ensures OptionalAmong(a + b, wires)
  {
    forall n | 0 <= n < |a + b| ensures ((a + b)[n].optional <==> (a + b)[n].wire in wires) {
      if n < |a| { assert (a + b)[n] == a[n]; } else { assert (a + b)[n] == b[n - |a|]; }
    }
  }

  /** In a struct whose `Option` fields are exactly those named in `wires`, a missing field
      not named there makes the whole struct fail. */
  lemma RequiredUnlessListed(k: Kind, wires: set<string>, entries: seq<(string, JValue)>, n: nat)
    requires k.KRec? && OptionalExactly(k, wires) && n < |k.fields|
    requires k.fields[n].wire !in Keys(entries) && k.fields[n].wire !in wires
    ensures Decode(k, JObj(entries)).Err?
  {
    AbsentField(k, entries, n);
  }

  /** In what the derived serializer writes for a struct with distinct field names, a field
      skipped when `None` is absent when it is `None` and occurs once, as its value's
      encoding, when it is set. */
  lemma EncodedField(k: Kind, slots: seq<Option<Val>>, n: nat)
    requires k.KRec? && n < |k.fields| && n < |slots| && k.fields[n].skip == IfNone
    requires forall a, b :: 0 <= a < b < |k.fields| ==> k.fields[a].wire != k.fields[b].wire
    ensures slots[n].None? ==> Occurrences(Encode(k, VRec(slots)).entries, k.fields[n].wire) == Absent
    ensures slots[n].Some? ==>
      Occurrences(Encode(k, VRec(slots)).entries, k.fields[n].wire) == Once(Encode(k.fields[n].kind, slots[n].value))
  {
    EncodeFieldsFound(k, slots, 0, n);
  }

  /** A field missing from the object: an `Option` field reads as `None`, and any other field
      makes the whole struct fail. */
  lemma AbsentField(k: Kind, entries: seq<(string, JValue)>, n: nat)
    requires k.KRec? && n < |k.fields| && k.fields[n].wire !in Keys(entries)
    ensures !k.fields[n].optional ==> Decode(k, JObj(entries)).Err?
    ensures k.fields[n].optional && Decode(k, JObj(entries)).Ok? ==>
      Decode(k, JObj(entries)).value.slots[n] == None
  {
    DecodeSlotCases(k.fields[n], entries);
    DecodeRecord(k, entries);
  }

  /** A field given as `null`: an `Option` field reads as `None`, and any other field whose
      type is not an arbitrary JSON value makes the whole struct fail. */
  lemma NullField(k: Kind, entries: seq<(string, JValue)>, n: nat)
    requires k.KRec? && n < |k.fields| && Occurrences(entries, k.fields[n].wire) == Once(JNull)
    ensures !k.fields[n].optional && k.fields[n].kind != KAny ==> Decode(k, JObj(entries)).Err?
    ensures k.fields[n].optional && Decode(k, JObj(entries)).Ok? ==>
      Decode(k, JObj(entries)).value.slots[n] == None
  {
    DecodeSlotCases(k.fields[n], entries);
    DecodeRecord(k, entries);
  }

  /** The string in a decoded `String` slot. */
  function StrOf(slot: Option<Val>): string {
    if slot.Some? && slot.value.VStr? then slot.value.s else ""
  }

  /** The boolean in a decoded `bool` slot. */
  function BoolOf(slot: Option<Val>): bool {
    slot.Some? && slot.value.VBool? && slot.value.b
  }

  /** The strings in a decoded `Vec<String>` slot. */
  function StrListOf(slot: Option<Val>): seq<string> {
    if slot.Some? then StrsOf(slot.value) else []
  }

  /** The value of a decoded `Option<String>` slot. */
  function OptStrOf(slot: Option<Val>): Option<string> {
    if slot.Some? && slot.value.VStr? then Some(slot.value.s) else None
  }

  /** The slot of an `Option<String>` field. */
  function OptStrVal(s: Option<string>): Option<Val> {
    if s.Some? then Some(VStr(s.value)) else None
  }

  function OptBoolVal(b: Option<bool>): Option<Val> {
    if b.Some? then Some(VBool(b.value)) else None
  }

  function OptIntVal(i: Option<int>): Option<Val> {
    if i.Some? then Some(VInt(i.value)) else None
  }

  /** How a field skipped when `None` occurs in the object written for it. */
  function StrFound(s: Option<string>): Found {
    if s.Some? then Once(JStr(s.value)) else Absent
  }

  function BoolFound(b: Option<bool>): Found {
    if b.Some? then Once(JBool(b.value)) else Absent
  }

  function IntFound(i: Option<int>): Found {
    if i.Some? then Once(JInt(i.value)) else Absent
  }

  /** The entry an optional string field writes: none when it is `None`. */
  function OptEntry(wire: string, s: Option<string>): (r: seq<(string, JValue)>)
    ensures |r| <= 1
  {
    if s.Some? then [(wire, JStr(s.value))] else []
  }

  /** The entry an optional integer field writes: none when it is `None`. */
  function OptIntEntry(wire: string, i: Option<int>): (r: seq<(string, JValue)>)
    ensures |r| <= 1
  {
    if i.Some? then [(wire, JInt(i.value))] else []
  }

  /** The entry an optional boolean field writes: none when it is `None`. */
  function OptBoolEntry(wire: string, b: Option<bool>): (r: seq<(string, JValue)>)
    ensures |r| <= 1
  {
    if b.Some? then [(wire, JBool(b.value))] else []
  }

  /** The value of a `Vec<String>`. */
  function StrListVal(ss: seq<string>): (v: Val)
    ensures Conforms(KList(KStr), v)
  {
    VList(seq(|ss|, n requires 0 <= n < |ss| => VStr(ss[n])))
  }

  /** The strings of a decoded `Vec<String>`. */
  function StrsOf(v: Val): (ss: seq<string>)
    ensures v.VList? ==> |ss| == |v.items|
  {
    if v.VList? then seq(|v.items|, n requires 0 <= n < |v.items| => if v.items[n].VStr? then v.items[n].s else "")
    else []
  }

  /** Reading the strings back from the value of a `Vec<String>` gives them again. */
  lemma StrsOfList(ss: seq<string>)
    ensures StrsOf(StrListVal(ss)) == ss
  {
  }

  /** The strings as JSON strings, in order. */
  function JStrs(ss: seq<string>): (js: seq<JValue>)
    ensures |js| == |ss|
    ensures forall n :: 0 <= n < |ss| ==> js[n] == JStr(ss[n])
  {
    seq(|ss|, n requires 0 <= n < |ss| => JStr(ss[n]))
  }

  /** A list is written element by element, in order. */
  lemma {:induction false} EncodeItemsEach(k: Kind, items: seq<Val>)
    requires k.KList?
    ensures forall n :: 0 <= n < |items| ==> EncodeItems(k, items)[n] == Encode(k.elem, items[n])
    decreases |items|
  {
    if |items| > 0 {
      EncodeItemsEach(k, items[1..]);
      forall n | 0 <= n < |items| ensures EncodeItems(k, items)[n] == Encode(k.elem, items[n]) {
        if n > 0 {
          assert items[1..][n - 1] == items[n];
        }
      }
    }
  }

  /** A map is written entry by entry, in order, each key with its encoded value. */
  lemma {:induction false} EncodeEntriesEach(k: Kind, entries: seq<(string, Val)>)
    requires k.KMap?
    ensures forall n :: 0 <= n < |entries| ==>
      EncodeEntries(k, entries)[n] == (entries[n].0, Encode(k.elem, entries[n].1))
    decreases |entries|
  {
    if |entries| > 0 {
      var init := entries[..|entries| - 1];
      EncodeEntriesEach(k, init);
      forall n | 0 <= n < |entries| - 1
        ensures EncodeEntries(k, entries)[n] == (entries[n].0, Encode(k.elem, entries[n].1))
      {
        assert init[n] == entries[n];
      }
    }
  }

  /** A `Vec<String>` is written as the array of its strings, in order. */
  lemma EncodeStrList(ss: seq<string>)
    ensures Encode(KList(KStr), StrListVal(ss)) == JArr(JStrs(ss))
  {
    EncodeItemsEach(KList(KStr), StrListVal(ss).items);
  }

  /** A struct's entries from the i-th field on: the i-th field's entry, then the rest. */
  lemma EncodeFieldsCons(k: Kind, slots: seq<Option<Val>>, i: nat)
    requires k.KRec? && i < |k.fields| && i < |slots|
    ensures EncodeFields(k, slots, i) == EncodeSlot(k.fields[i], slots[i]) + EncodeFields(k, slots, i + 1)
  {
  }

  /** Appending in two steps is appending once: the step that turns a field-by-field unfolding
      of a struct's entries into a flat list. */
  lemma AppendAssoc(a: seq<(string, JValue)>, b: seq<(string, JValue)>, c: seq<(string, JValue)>)
    ensures a + (b + c) == a + b + c
  {
  }

  /** A struct's entries past its last field: none. */
  lemma EncodeFieldsEnd(k: Kind, slots: seq<Option<Val>>)
    requires k.KRec?
    ensures EncodeFields(k, slots, |k.fields|) == []
  {
  }

  /** A struct of one field is written as that field's entries. */
  lemma EncodeOne(k: Kind, slots: seq<Option<Val>>, e0: seq<(string, JValue)>)
    requires k.KRec? && |k.fields| == 1 && |slots| == 1
    requires EncodeSlot(k.fields[0], slots[0]) == e0
    ensures Encode(k, VRec(slots)) == JObj(e0)
  {
    EncodeFieldsEnd(k, slots);
    EncodeFieldsCons(k, slots, 0);
    assert e0 + [] == e0;
  }

  /** A struct of two fields is written as the entries of its fields, in order. */
  lemma EncodeTwo(k: Kind, slots: seq<Option<Val>>, e0: seq<(string, JValue)>, e1: seq<(string, JValue)>)
    requires k.KRec? && |k.fields| == 2 && |slots| == 2
    requires EncodeSlot(k.fields[0], slots[0]) == e0 && EncodeSlot(k.fields[1], slots[1]) == e1
    ensures Encode(k, VRec(slots)) == JObj(e0 + e1)
  {
    EncodeFieldsEnd(k, slots);
    EncodeFieldsCons(k, slots, 1);
    EncodeFieldsCons(k, slots, 0);
    assert e1 + [] == e1;
  }

  /** A struct of three fields is written as the entries of its fields, in order. */
  lemma EncodeThree(k: Kind, slots: seq<Option<Val>>, e0: seq<(string, JValue)>, e1: seq<(string, JValue)>,
    e2: seq<(string, JValue)>)
    requires k.KRec? && |k.fields| == 3 && |slots| == 3
    requires EncodeSlot(k.fields[0], slots[0]) == e0 && EncodeSlot(k.fields[1], slots[1]) == e1
    requires EncodeSlot(k.fields[2], slots[2]) == e2
    ensures Encode(k, VRec(slots)) == JObj(e0 + e1 + e2)
  {
    EncodeFieldsEnd(k, slots);
    EncodeFieldsCons(k, slots, 2);
    EncodeFieldsCons(k, slots, 1);
    EncodeFieldsCons(k, slots, 0);
    AppendAssoc(e0, e1, e2);
  }

  /** A struct of four fields is written as the entries of its fields, in order. */
  lemma EncodeFour(k: Kind, slots: seq<Option<Val>>, e0: seq<(string, JValue)>, e1: seq<(string, JValue)>,
    e2: seq<(string, JValue)>, e3: seq<(string, JValue)>)
    requires k.KRec? && |k.fields| == 4 && |slots| == 4
    requires EncodeSlot(k.fields[0], slots[0]) == e0 && EncodeSlot(k.fields[1], slots[1]) == e1
    requires EncodeSlot(k.fields[2], slots[2]) == e2 && EncodeSlot(k.fields[3], slots[3]) == e3
    ensures Encode(k, VRec(slots)) == JObj(e0 + e1 + e2 + e3)
  {
    EncodeFieldsEnd(k, slots);
    EncodeFieldsCons(k, slots, 3);
    EncodeFieldsCons(k, slots, 2);
    EncodeFieldsCons(k, slots, 1);
    EncodeFieldsCons(k, slots, 0);
    AppendAssoc(e0, e1, e2 + e3);
    AppendAssoc(e0 + e1, e2, e3);
  }

  /** A struct of five fields is written as the entries of its fields, in order. */
  lemma EncodeFive(k: Kind, slots: seq<Option<Val>>, e0: seq<(string, JValue)>, e1: seq<(string, JValue)>,
    e2: seq<(string, JValue)>, e3: seq<(string, JValue)>, e4: seq<(string, JValue)>)
    requires k.KRec? && |k.fields| == 5 && |slots| == 5
    requires EncodeSlot(k.fields[0], slots[0]) == e0 && EncodeSlot(k.fields[1], slots[1]) == e1
    requires EncodeSlot(k.fields[2], slots[2]) == e2 && EncodeSlot(k.fields[3], slots[3]) == e3
    requires EncodeSlot(k.fields[4], slots[4]) == e4
    ensures Encode(k, VRec(slots)) == JObj(e0 + e1 + e2 + e3 + e4)
  {
    EncodeFieldsEnd(k, slots);
    EncodeFieldsCons(k, slots, 4);
    EncodeFieldsCons(k, slots, 3);
    EncodeFieldsCons(k, slots, 2);
    EncodeFieldsCons(k, slots, 1);
    EncodeFieldsCons(k, slots, 0);
    AppendAssoc(e0, e1, e2 + (e3 + e4));
    AppendAssoc(e0 + e1, e2, e3 + e4);
    AppendAssoc(e0 + e1 + e2, e3, e4);
  }

  /** A struct of six fields is written as the entries of its fields, in order. */
  lemma EncodeSix(k: Kind, slots: seq<Option<Val>>, e0: seq<(string, JValue)>, e1: seq<(string, JValue)>,
    e2: seq<(string, JValue)>, e3: seq<(string, JValue)>, e4: seq<(string, JValue)>, e5: seq<(string, JValue)>)
    requires k.KRec? && |k.fields| == 6 && |slots| == 6
    requires EncodeSlot(k.fields[0], slots[0]) == e0 && EncodeSlot(k.fields[1], slots[1]) == e1
    requires EncodeSlot(k.fields[2], slots[2]) == e2 && EncodeSlot(k.fields[3], slots[3]) == e3
    requires EncodeSlot(k.fields[4], slots[4]) == e4 && EncodeSlot(k.fields[5], slots[5]) == e5
    ensures Encode(k, VRec(slots)) == JObj(e0 + e1 + e2 + e3 + e4 + e5)
  {
    EncodeFieldsEnd(k, slots);
    EncodeFieldsCons(k, slots, 5);
    EncodeFieldsCons(k, slots, 4);
    EncodeFieldsCons(k, slots, 3);
    EncodeFieldsCons(k, slots, 2);
    EncodeFieldsCons(k, slots, 1);
    EncodeFieldsCons(k, slots, 0);
    AppendAssoc(e0, e1, e2 + (e3 + (e4 + e5)));
    AppendAssoc(e0 + e1, e2, e3 + (e4 + e5));
    AppendAssoc(e0 + e1 + e2, e3, e4 + e5);
    AppendAssoc(e0 + e1 + e2 + e3, e4, e5);
  }
}
