/** Deploy keys of a repository: creating, listing, reading and deleting them, with the key
    record and the options a key is created with. */
module Keys {
  import opened Wrappers
  import opened Json
  import opened Schema
  import Text
  import Client

  /** `Keys`: the deploy keys of one repository. */
  datatype KeysApi = KeysApi(owner: string, repo: string)

  /** `path`: the repository's keys, with `more` after. */
  function Path(k: KeysApi, more: string): string {
    "/repos/" + k.owner + "/" + k.repo + "/keys" + more
  }

  /** `create`: posts the options to the keys. */
  function Create(k: KeysApi, key: KeyOptions): (req: Client.Call)
    ensures req == Client.Call(Client.Post, "/repos/" + k.owner + "/" + k.repo + "/keys", Client.JsonBody(KeyOptionsJson(key)))
  {
    Client.PostCall(Path(k, ""), KeyOptionsJson(key))
  }

  function List(k: KeysApi): (req: Client.Call)
    ensures req == Client.Call(Client.Get, "/repos/" + k.owner + "/" + k.repo + "/keys", Client.NoBody)
  {
    Client.GetCall(Path(k, ""))
  }

  function Get(k: KeysApi, id: Uint64): (req: Client.Call)
    ensures req == Client.Call(Client.Get, "/repos/" + k.owner + "/" + k.repo + "/keys/" + Text.NatToString(id), Client.NoBody)
  {
    Client.GetCall(Path(k, "/" + Text.NatToString(id)))
  }

  function Delete(k: KeysApi, id: Uint64): (req: Client.Call)
    ensures req == Client.Call(Client.Delete, "/repos/" + k.owner + "/" + k.repo + "/keys/" + Text.NatToString(id), Client.NoBody)
  {
    Client.DeleteCall(Path(k, "/" + Text.NatToString(id)))
  }

  /** Keys are created and listed at the repository's keys, and read and deleted at their id
      below them. */
  lemma KeyCalls(k: KeysApi, id: Uint64, key: KeyOptions)
    ensures List(k).uri == Create(k, key).uri == "/repos/" + k.owner + "/" + k.repo + "/keys"
    ensures Create(k, key).verb == Client.Post && Create(k, key).body == Client.JsonBody(KeyOptionsJson(key))
    ensures Get(k, id).uri == Delete(k, id).uri == List(k).uri + "/" + Text.NatToString(id)
    ensures Get(k, id).verb == Client.Get && Delete(k, id).verb == Client.Delete
  {
    assert Get(k, id).uri == List(k).uri + "/" + Text.NatToString(id);
  }

  /** `KeyOptions`: title, key and read-only flag, all always written. */
  datatype KeyOptions = KeyOptions(title: string, key: string, readOnly: bool)

  const KeyOptionsKind := KRec([Req("title", KStr), Req("key", KStr), Req("read_only", KBool)])

  function KeyOptionsVal(o: KeyOptions): (v: Val)
    ensures Conforms(KeyOptionsKind, v)
  {
    VRec([Some(VStr(o.title)), Some(VStr(o.key)), Some(VBool(o.readOnly))])
  }

  function KeyOptionsOf(v: Val): KeyOptions {
    if v.VRec? && |v.slots| == 3 then KeyOptions(StrOf(v.slots[0]), StrOf(v.slots[1]), BoolOf(v.slots[2]))
    else KeyOptions("", "", false)
  }

  /** `json!(key)`: the body `create` sends. */
  function KeyOptionsJson(o: KeyOptions): JValue {
    Encode(KeyOptionsKind, KeyOptionsVal(o))
  }

  /** The options always write all three keys, in declaration order. */
  lemma KeyOptionsJsonFields(o: KeyOptions)
    ensures KeyOptionsJson(o) == JObj([("title", JStr(o.title))] + [("key", JStr(o.key))] + [("read_only", JBool(o.readOnly))])
  {
    var k, v := KeyOptionsKind, KeyOptionsVal(o);
    EncodeThree(k, v.slots, [("title", JStr(o.title))], [("key", JStr(o.key))], [("read_only", JBool(o.readOnly))]);
  }

  /** What a server reads back from the body is the options that were sent. */
  lemma KeyOptionsRoundTrip(o: KeyOptions)
    ensures Decode(KeyOptionsKind, KeyOptionsJson(o)).Ok?
    ensures KeyOptionsOf(Decode(KeyOptionsKind, KeyOptionsJson(o)).value) == o
  {
    KeyOptionsWellFormed();
    RoundTrip(KeyOptionsKind, KeyOptionsVal(o));
  }

  lemma KeyOptionsWellFormed()
    ensures WellFormed(KeyOptionsKind)
  {
  }

  /** `Key`: every field required. */
  const KeyKind := KRec([
    Req("id", U64), Req("key", KStr), Req("title", KStr), Req("verified", KBool), Req("created_at", KStr),
    Req("read_only", KBool)])

  /** A key missing any of its six fields does not decode. */
  lemma KeyRequired(entries: seq<(string, JValue)>, n: nat)
    requires n < |KeyKind.fields| && KeyKind.fields[n].wire !in Keys(entries)
    ensures Decode(KeyKind, JObj(entries)).Err?
  {
    AbsentField(KeyKind, entries, n);
  }
}
