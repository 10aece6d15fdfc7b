/** Repository hooks: the list, create, edit and delete requests, the two options builders that
    write a hook's `config` map, and the reading of config members back from a hook. */
module Hooks {
  import opened Wrappers
  import opened Json
  import opened Schema
  import Text
  import StringOrder
  import JsonPointer
  import Client

  /** `WebHookContentType`: the payload format deliveries use. */
  datatype ContentType = Json | Form

  /** `Display for WebHookContentType`, which writes the same text as the serde tags. */
  function ContentTypeText(c: ContentType): string {
    match c
    case Json => "json"
    case Form => "form"
  }

  /** The inverse of `ContentTypeText`. */
  function ParseContentType(t: string): (r: Option<ContentType>)
    ensures forall c :: r == Some(c) <==> ContentTypeText(c) == t
  {
    match t
    case "json" => Some(Json)
    case "form" => Some(Form)
    case _ => None
  }

  /** `WebHookContentType::default()`. */
  function DefaultContentType(): (c: ContentType)
    ensures ContentTypeText(c) == "form"
  {
    Form
  }

  const ContentTypeKind := KTag(["json", "form"])

  /** The serde form of each content type is its display text, and it reads back. */
  lemma ContentTypeCodec(c: ContentType)
    ensures Encode(ContentTypeKind, VTag(ContentTypeText(c))) == JStr(ContentTypeText(c))
    ensures Decode(ContentTypeKind, JStr(ContentTypeText(c))) == Ok(VTag(ContentTypeText(c)))
    ensures forall t :: Decode(ContentTypeKind, JStr(t)).Ok? <==> ParseContentType(t).Some?
  {
  }

  /** `Hooks`: the hooks of one repository. */
  datatype HooksApi = HooksApi(owner: string, repo: string)

  function Path(h: HooksApi, more: string): string {
    "/repos/" + h.owner + "/" + h.repo + "/hooks" + more
  }

  function List(h: HooksApi): (req: Client.Call)
    ensures req == Client.Call(Client.Get, "/repos/" + h.owner + "/" + h.repo + "/hooks", Client.NoBody)
  {
    Client.GetCall(Path(h, ""))
  }

  function Create(h: HooksApi, o: HookCreateOptions): (req: Client.Call)
    ensures req == Client.Call(Client.Post, "/repos/" + h.owner + "/" + h.repo + "/hooks", Client.JsonBody(HookCreateOptionsJson(o)))
  {
    Client.PostCall(Path(h, ""), HookCreateOptionsJson(o))
  }

  function Edit(h: HooksApi, id: nat, o: HookEditOptions): (req: Client.Call)
    ensures req == Client.Call(Client.Patch, "/repos/" + h.owner + "/" + h.repo + "/hooks/" + Text.NatToString(id), Client.JsonBody(HookEditOptionsJson(o)))
  {
    Client.PatchCall(Path(h, "/" + Text.NatToString(id)), HookEditOptionsJson(o))
  }

  function Delete(h: HooksApi, id: nat): (req: Client.Call)
    ensures req == Client.Call(Client.Delete, "/repos/" + h.owner + "/" + h.repo + "/hooks/" + Text.NatToString(id), Client.NoBody)
  {
    Client.DeleteCall(Path(h, "/" + Text.NatToString(id)))
  }

  /** Hooks are listed and created at one uri; one hook is edited and deleted below it by id,
      and only the delete sends no body. */
  lemma HookCalls(h: HooksApi, id: nat, c: HookCreateOptions, e: HookEditOptions)
    ensures List(h).uri == Create(h, c).uri == "/repos/" + h.owner + "/" + h.repo + "/hooks"
    ensures Edit(h, id, e).uri == Delete(h, id).uri == List(h).uri + "/" + Text.NatToString(id)
    ensures Create(h, c).verb == Client.Post && Edit(h, id, e).verb == Client.Patch
    ensures Delete(h, id).verb == Client.Delete && Delete(h, id).body == Client.NoBody
  {
  }

  /** A `BTreeMap<String, Value>` config, as the entries it visits in key order. */
  type Config = seq<(string, JValue)>

  /** The value of a config map: each value as a `serde_json::Value`. */
  function ConfigVal(c: Config): (v: Val)
    ensures v.VMap? && |v.entries| == |c|
  {
    VMap(seq(|c|, n requires 0 <= n < |c| => (c[n].0, VAny(c[n].1))))
  }

  /** A config map is written as the object of its entries, in the same order. */
  lemma EncodeConfig(c: Config)
    ensures Encode(KMap(KAny), ConfigVal(c)) == JObj(c)
  {
    var entries := ConfigVal(c).entries;
    EncodeEntriesEach(KMap(KAny), entries);
    var r := EncodeEntries(KMap(KAny), entries);
    forall n | 0 <= n < |c| ensures r[n] == c[n] {
      assert entries[n] == (c[n].0, VAny(c[n].1));
      assert Encode(KAny, VAny(c[n].1)) == c[n].1;
    }
    assert r == c;
  }

  /** `config_entry`, shared by both builders: `BTreeMap::insert`. */
  function SetConfig(c: Config, name: string, value: JValue): (r: Config)
    requires StringOrder.SortedEntries(c)
    ensures StringOrder.SortedEntries(r)
  {
    StringOrder.Insert(c, name, value)
  }

  /** A config write stores its value under its name, leaves every other name as it was, and
      a second write of a name replaces the first. */
  lemma SetConfigLookup(c: Config, name: string, value: JValue, other: string, later: JValue)
    requires StringOrder.SortedEntries(c)
    ensures StringOrder.Lookup(SetConfig(c, name, value), name) == Some(value)
    ensures other != name ==> StringOrder.Lookup(SetConfig(c, name, value), other) == StringOrder.Lookup(c, other)
    ensures StringOrder.Lookup(SetConfig(SetConfig(c, name, value), name, later), name) == Some(later)
  {
    StringOrder.InsertLookup(c, name, value, other);
    StringOrder.InsertLookup(SetConfig(c, name, value), name, later, other);
  }

  /** `HookCreateOptions`: name, config, events and active, always all written. */
  datatype HookCreateOptions = HookCreateOptions(name: string, config: Config, events: seq<string>, active: bool)

  const HookCreateOptionsKind :=
    KRec([Req("name", KStr), Req("config", KMap(KAny)), Req("events", KList(KStr)), Req("active", KBool)])

  function HookCreateOptionsVal(o: HookCreateOptions): (v: Val)
    ensures v.VRec? && |v.slots| == |HookCreateOptionsKind.fields|
  {
    VRec([Some(VStr(o.name)), Some(ConfigVal(o.config)), Some(StrListVal(o.events)), Some(VBool(o.active))])
  }

  function HookCreateOptionsJson(o: HookCreateOptions): JValue {
    Encode(HookCreateOptionsKind, HookCreateOptionsVal(o))
  }

  /** The body: the name, the config as an object of its entries, the events in order, and the
      active flag. */
  lemma HookCreateOptionsJsonFields(o: HookCreateOptions)
    ensures HookCreateOptionsJson(o) == JObj([("name", JStr(o.name)), ("config", JObj(o.config)),
      ("events", JArr(JStrs(o.events))), ("active", JBool(o.active))])
  {
    var k, v := HookCreateOptionsKind, HookCreateOptionsVal(o);
    var e0, e1, e2, e3 := [("name", JStr(o.name))], [("config", JObj(o.config))],
      [("events", JArr(JStrs(o.events)))], [("active", JBool(o.active))];
    assert EncodeSlot(k.fields[0], v.slots[0]) == e0;
    assert EncodeSlot(k.fields[1], v.slots[1]) == e1 by { EncodeConfig(o.config); }
    assert EncodeSlot(k.fields[2], v.slots[2]) == e2 by { EncodeStrList(o.events); }
    assert EncodeSlot(k.fields[3], v.slots[3]) == e3;
    EncodeFour(k, v.slots, e0, e1, e2, e3);
  }

  /** `HookCreateOptionsBuilder`: the options under construction, whose config stays in key
      order. */
  class HookCreateOptionsBuilder {
    var options: HookCreateOptions

    predicate Valid()
      reads this
    {
      StringOrder.SortedEntries(options.config)
    }

    /** `HookCreateOptions::builder(name)`: active, with no config and no events. */
    constructor (name: string)
      ensures Valid() && options == HookCreateOptions(name, [], [], true)
    {
      options := HookCreateOptions(name, [], [], true);
    }

    /** `HookCreateOptions::web()`: a builder for the hook named "web". */
    static method Web() returns (b: HookCreateOptionsBuilder)
      ensures fresh(b) && b.Valid() && b.options == HookCreateOptions("web", [], [], true)
    {
      b := new HookCreateOptionsBuilder("web");
    }

    method SetActive(active: bool)
      modifies this
      ensures options == old(options).(active := active)
    {
      options := options.(active := active);
    }

    /** `events`: replaces the whole list. */
    method SetEvents(events: seq<string>)
      modifies this
      ensures options == old(options).(events := events)
    {
      options := options.(events := events);
    }

    method ConfigEntry(name: string, value: JValue)
      requires Valid()
      modifies this
      ensures Valid() && options == old(options).(config := SetConfig(old(options).config, name, value))
    {
      options := options.(config := SetConfig(options.config, name, value));
    }

    method ConfigStrEntry(name: string, value: string)
      requires Valid()
      modifies this
      ensures Valid() && options == old(options).(config := SetConfig(old(options).config, name, JStr(value)))
    {
      ConfigEntry(name, JStr(value));
    }

    method SetUrl(url: string)
      requires Valid()
      modifies this
      ensures Valid() && options == old(options).(config := SetConfig(old(options).config, "url", JStr(url)))
    {
      ConfigEntry("url", JStr(url));
    }

    method SetContentType(c: ContentType)
      requires Valid()
      modifies this
      ensures Valid() &&
        options == old(options).(config := SetConfig(old(options).config, "content_type", JStr(ContentTypeText(c))))
    {
      ConfigStrEntry("content_type", ContentTypeText(c));
    }

    method SetSecret(secret: string)
      requires Valid()
      modifies this
      ensures Valid() && options == old(options).(config := SetConfig(old(options).config, "secret", JStr(secret)))
    {
      ConfigStrEntry("secret", secret);
    }

    /** `build`: the options as the builder holds them. */
    function Build(): (o: HookCreateOptions)
      reads this
      requires Valid()
      ensures o == options && StringOrder.SortedEntries(o.config)
    {
      options
    }
  }

  /** Setting the url, then the content type, then the secret leaves the config in key order:
      content_type, secret, url. */
  lemma WebHookConfig(url: string, contentType: string, secret: string)
    ensures SetConfig(SetConfig(SetConfig([], "url", JStr(url)), "content_type", JStr(contentType)), "secret", JStr(secret))
      == [("content_type", JStr(contentType)), ("secret", JStr(secret)), ("url", JStr(url))]
  {
    var c1 := SetConfig([], "url", JStr(url));
    assert c1 == [("url", JStr(url))];
    assert StringOrder.Less("content_type", "url");
    var c2 := SetConfig(c1, "content_type", JStr(contentType));
    assert c2 == [("content_type", JStr(contentType)), ("url", JStr(url))];
    assert !StringOrder.Less("secret", "content_type") && StringOrder.Less("secret", "url");
    assert c2[1..] == c1;
    assert StringOrder.Insert(c1, "secret", JStr(secret)) == [("secret", JStr(secret))] + c1;
    assert SetConfig(c2, "secret", JStr(secret)) == [c2[0]] + StringOrder.Insert(c2[1..], "secret", JStr(secret));
  }

  /** The body of a web hook with a url, the json content type, a secret and two events. */
  lemma WebHookBody(url: string, secret: string)
    ensures HookCreateOptionsJson(HookCreateOptions("web",
      [("content_type", JStr("json")), ("secret", JStr(secret)), ("url", JStr(url))], ["push", "fork"], true)) ==
      JObj([("name", JStr("web")),
        ("config", JObj([("content_type", JStr("json")), ("secret", JStr(secret)), ("url", JStr(url))])),
        ("events", JArr([JStr("push"), JStr("fork")])), ("active", JBool(true))])
  {
    var o := HookCreateOptions("web",
      [("content_type", JStr("json")), ("secret", JStr(secret)), ("url", JStr(url))], ["push", "fork"], true);
    HookCreateOptionsJsonFields(o);
    assert JStrs(o.events) == [JStr("push"), JStr("fork")];
  }

  /** A web hook built with a url, the json content type, a secret and two events: the config
      object lists its keys in ascending order, whatever order they were set in. */
  method WebHookExample(url: string, secret: string) returns (body: JValue)
    ensures body == JObj([("name", JStr("web")),
      ("config", JObj([("content_type", JStr("json")), ("secret", JStr(secret)), ("url", JStr(url))])),
      ("events", JArr([JStr("push"), JStr("fork")])), ("active", JBool(true))])
  {
    WebHookConfig(url, "json", secret);
    var b := HookCreateOptionsBuilder.Web();
    b.SetUrl(url);
    b.SetContentType(Json);
    b.SetSecret(secret);
    assert b.options.config == [("content_type", JStr("json")), ("secret", JStr(secret)), ("url", JStr(url))];
    b.SetEvents(["push", "fork"]);
    body := HookCreateOptionsJson(b.Build());
    WebHookBody(url, secret);
  }

  /** `HookEditOptions`: config, events, add_events, remove_events and active, always all
      written. */
  datatype HookEditOptions =
    HookEditOptions(config: Config, events: seq<string>, addEvents: seq<string>, removeEvents: seq<string>, active: bool)

  const HookEditOptionsKind := KRec([Req("config", KMap(KAny)), Req("events", KList(KStr)),
    Req("add_events", KList(KStr)), Req("remove_events", KList(KStr)), Req("active", KBool)])

  function HookEditOptionsVal(o: HookEditOptions): (v: Val)
    ensures v.VRec? && |v.slots| == |HookEditOptionsKind.fields|
  {
    VRec([Some(ConfigVal(o.config)), Some(StrListVal(o.events)), Some(StrListVal(o.addEvents)),
      Some(StrListVal(o.removeEvents)), Some(VBool(o.active))])
  }

  function HookEditOptionsJson(o: HookEditOptions): JValue {
    Encode(HookEditOptionsKind, HookEditOptionsVal(o))
  }

  /** The body: the config object, the three event lists in order, and the active flag. */
  lemma HookEditOptionsJsonFields(o: HookEditOptions)
    ensures HookEditOptionsJson(o) == JObj([("config", JObj(o.config)), ("events", JArr(JStrs(o.events))),
      ("add_events", JArr(JStrs(o.addEvents))), ("remove_events", JArr(JStrs(o.removeEvents))),
      ("active", JBool(o.active))])
  {
    var k, v := HookEditOptionsKind, HookEditOptionsVal(o);
    var e0, e1, e2, e3, e4 := [("config", JObj(o.config))], [("events", JArr(JStrs(o.events)))],
      [("add_events", JArr(JStrs(o.addEvents)))], [("remove_events", JArr(JStrs(o.removeEvents)))],
      [("active", JBool(o.active))];
    assert EncodeSlot(k.fields[0], v.slots[0]) == e0 by { EncodeConfig(o.config); }
    assert EncodeSlot(k.fields[1], v.slots[1]) == e1 by { EncodeStrList(o.events); }
    assert EncodeSlot(k.fields[2], v.slots[2]) == e2 by { EncodeStrList(o.addEvents); }
    assert EncodeSlot(k.fields[3], v.slots[3]) == e3 by { EncodeStrList(o.removeEvents); }
    assert EncodeSlot(k.fields[4], v.slots[4]) == e4;
    EncodeFive(k, v.slots, e0, e1, e2, e3, e4);
  }

  /** `HookEditOptionsBuilder`: the default options, inactive with no config and no events.
      No setter touches add_events or remove_events, so they stay empty. */
  class HookEditOptionsBuilder {
    var options: HookEditOptions

    predicate Valid()
      reads this
    {
      StringOrder.SortedEntries(options.config) && options.addEvents == [] && options.removeEvents == []
    }

    /** `HookEditOptions::builder()`. */
    constructor ()
      ensures Valid() && options == HookEditOptions([], [], [], [], false)
    {
      options := HookEditOptions([], [], [], [], false);
    }

    method SetActive(active: bool)
      requires Valid()
      modifies this
      ensures Valid() && options == old(options).(active := active)
    {
      options := options.(active := active);
    }

    /** `events`: replaces the whole list. */
    method SetEvents(events: seq<string>)
      requires Valid()
      modifies this
      ensures Valid() && options == old(options).(events := events)
    {
      options := options.(events := events);
    }

    method ConfigEntry(name: string, value: JValue)
      requires Valid()
      modifies this
      ensures Valid() && options == old(options).(config := SetConfig(old(options).config, name, value))
    {
      options := options.(config := SetConfig(options.config, name, value));
    }

    method ConfigStrEntry(name: string, value: string)
      requires Valid()
      modifies this
      ensures Valid() && options == old(options).(config := SetConfig(old(options).config, name, JStr(value)))
    {
      ConfigEntry(name, JStr(value));
    }

    method SetUrl(url: string)
      requires Valid()
      modifies this
      ensures Valid() && options == old(options).(config := SetConfig(old(options).config, "url", JStr(url)))
    {
      ConfigEntry("url", JStr(url));
    }

    method SetContentType(c: ContentType)
      requires Valid()
      modifies this
      ensures Valid() &&
        options == old(options).(config := SetConfig(old(options).config, "content_type", JStr(ContentTypeText(c))))
    {
      ConfigStrEntry("content_type", ContentTypeText(c));
    }

    method SetSecret(secret: string)
      requires Valid()
      modifies this
      ensures Valid() && options == old(options).(config := SetConfig(old(options).config, "secret", JStr(secret)))
    {
      ConfigStrEntry("secret", secret);
    }

    /** `build`: the options as the builder holds them; the body it gives always sends empty
        add_events and remove_events. */
    function Build(): (o: HookEditOptions)
      reads this
      requires Valid()
      ensures StringOrder.SortedEntries(o.config) && o.addEvents == [] && o.removeEvents == []
      ensures o == options
    {
      options
    }
  }

  /** An edit that only deactivates a hook still sends an empty config and three empty lists. */
  method DeactivateExample() returns (body: JValue)
    ensures body == JObj([("config", JObj([])), ("events", JArr([])), ("add_events", JArr([])),
      ("remove_events", JArr([])), ("active", JBool(false))])
  {
    var b := new HookEditOptionsBuilder();
    b.SetActive(false);
    var o := b.Build();
    body := HookEditOptionsJson(o);
    HookEditOptionsJsonFields(o);
    assert JStrs([]) == [];
  }

  /** `Hook`: every field required; the config is any JSON value. */
  datatype Hook = Hook(id: nat, url: string, testUrl: string, pingUrl: string, name: string,
    events: seq<string>, config: JValue, createdAt: string, updatedAt: string, active: bool)

  const HookKind := KRec([Req("id", U64), Req("url", KStr), Req("test_url", KStr), Req("ping_url", KStr),
    Req("name", KStr), Req("events", KList(KStr)), Req("config", KAny), Req("created_at", KStr),
    Req("updated_at", KStr), Req("active", KBool)])

  /** The hook a decoded value holds. */
  function HookOf(v: Val): Hook {
    if v.VRec? && |v.slots| == 10 then
      var s := v.slots;
      Hook(if s[0].Some? && s[0].value.VInt? && s[0].value.i >= 0 then s[0].value.i else 0,
        StrOf(s[1]), StrOf(s[2]), StrOf(s[3]), StrOf(s[4]), if s[5].Some? then StrsOf(s[5].value) else [],
        if s[6].Some? && s[6].value.VAny? then s[6].value.j else JNull, StrOf(s[7]), StrOf(s[8]),
        s[9].Some? && s[9].value.VBool? && s[9].value.b)
    else Hook(0, "", "", "", "", [], JNull, "", "", false)
  }

  /** A hook missing any field does not decode. */
  lemma HookRequired(entries: seq<(string, JValue)>, n: nat)
    requires n < |HookKind.fields| && HookKind.fields[n].wire !in Keys(entries)
    ensures Decode(HookKind, JObj(entries)).Err?
  {
    AbsentField(HookKind, entries, n);
  }

  /** A decoded hook's config is the config the server sent, with its object keys in
      ascending order and one entry per key. */
  lemma HookConfigRead(entries: seq<(string, JValue)>, c: JValue)
    requires Decode(HookKind, JObj(entries)).Ok? && Occurrences(entries, "config") == Once(c)
    ensures HookOf(Decode(HookKind, JObj(entries)).value).config == Normalize(c)
  {
    DecodeRecord(HookKind, entries);
    DecodeSlotCases(HookKind.fields[6], entries);
  }

  /** `config_value`: the value at the pointer "/" + name. */
  function ConfigValue(h: Hook, name: string): (r: Option<JValue>)
    ensures '/' !in name && '~' !in name && h.config.JObj? ==> r == Get(h.config.entries, name)
    ensures '/' !in name && '~' !in name && !h.config.JObj? && !h.config.JArr? ==> r.None?
  {
    if '/' in name || '~' in name then JsonPointer.Pointer(h.config, "/" + name)
    else
      JsonPointer.PointerPlainName(h.config, name);
      JsonPointer.Pointer(h.config, "/" + name)
  }

  /** `config_string`: the config value when it is a JSON string, and nothing when it is
      missing or of another type. */
  function ConfigString(h: Hook, name: string): (r: Option<string>)
    ensures r.Some? <==> ConfigValue(h, name).Some? && ConfigValue(h, name).value.JStr?
    ensures r.Some? ==> ConfigValue(h, name) == Some(JStr(r.value))
  {
    match ConfigValue(h, name)
    case Some(JStr(s)) => Some(s)
    case _ => None
  }

  /** `Hook::url`. */
  function Url(h: Hook): (r: Option<string>)
    ensures h.config.JObj? ==> (r.Some? <==> Get(h.config.entries, "url").Some? && Get(h.config.entries, "url").value.JStr?)
    ensures h.config.JObj? && r.Some? ==> Get(h.config.entries, "url") == Some(JStr(r.value))
    ensures !h.config.JObj? && !h.config.JArr? ==> r.None?
  {
    ConfigString(h, "url")
  }

  /** `Hook::content_type`. */
  function HookContentType(h: Hook): (r: Option<string>)
    ensures h.config.JObj? ==> (r.Some? <==> Get(h.config.entries, "content_type").Some? && Get(h.config.entries, "content_type").value.JStr?)
    ensures h.config.JObj? && r.Some? ==> Get(h.config.entries, "content_type") == Some(JStr(r.value))
    ensures !h.config.JObj? && !h.config.JArr? ==> r.None?
  {
    ConfigString(h, "content_type")
  }

  /** A plain name (no '/' and no '~') reads the config member of that name when the config
      is an object, and nothing when the config is a string, number, boolean or null. */
  lemma ConfigStringPlain(h: Hook, name: string, s: string)
    requires '/' !in name && '~' !in name
    ensures h.config.JObj? ==> (ConfigString(h, name) == Some(s) <==> Get(h.config.entries, name) == Some(JStr(s)))
    ensures !h.config.JObj? && !h.config.JArr? ==> ConfigString(h, name).None?
  {
    JsonPointer.PointerPlainName(h.config, name);
  }

  /** A hook whose config is what a builder wrote reads back the url, content type and secret
      the builder set, and a value that is not a string reads as nothing. */
  lemma ConfigReadsWhatWasWritten(h: Hook, c: Config, name: string, value: JValue, s: string)
    requires StringOrder.SortedEntries(c) && '/' !in name && '~' !in name
    requires h.config == JObj(SetConfig(c, name, value))
    ensures ConfigString(h, name) == Some(s) <==> value == JStr(s)
    ensures value.JStr? ==> ConfigString(h, name) == Some(value.s)
  {
    SetConfigLookup(c, name, value, name, value);
    JsonPointer.GetSorted(SetConfig(c, name, value), name);
    ConfigStringPlain(h, name, s);
    if value.JStr? {
      ConfigStringPlain(h, name, value.s);
    }
  }

  /** `url()` and `content_type()` read the "url" and "content_type" members of an object
      config. */
  lemma UrlAndContentType(h: Hook, s: string)
    requires h.config.JObj?
    ensures Url(h) == Some(s) <==> Get(h.config.entries, "url") == Some(JStr(s))
    ensures HookContentType(h) == Some(s) <==> Get(h.config.entries, "content_type") == Some(JStr(s))
  {
    ConfigStringPlain(h, "url", s);
    ConfigStringPlain(h, "content_type", s);
  }
}
