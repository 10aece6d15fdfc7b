/** Deployments: the deployment and deployment-status requests, their option bodies and
    builders, the listing options, and the records GitHub returns. */
module Deployments {
  import opened Wrappers
  import opened Json
  import opened Schema
  import Text
  import QueryParams
  import Client
  import Users
  import Rep

  /** `Deployments`: the deployments of one repository. */
  datatype DeploymentsApi = DeploymentsApi(owner: string, repo: string)

  function DeploymentsPath(d: DeploymentsApi, more: string): string {
    "/repos/" + d.owner + "/" + d.repo + "/deployments" + more
  }

  /** `DeploymentStatuses`: the statuses of one deployment. */
  datatype DeploymentStatusesApi = DeploymentStatusesApi(owner: string, repo: string, id: nat)

  function StatusesPath(s: DeploymentStatusesApi, more: string): string {
    "/repos/" + s.owner + "/" + s.repo + "/deployments/" + Text.NatToString(s.id) + "/statuses" + more
  }

  /** `Deployments::statuses`. */
  function Statuses(d: DeploymentsApi, id: nat): DeploymentStatusesApi {
    DeploymentStatusesApi(d.owner, d.repo, id)
  }

  /** `Deployments::list`: the path, then "?" and the query only when some option is set. */
  function List(d: DeploymentsApi, options: QueryParams.Params): (req: Client.Call)
    ensures req.verb == Client.Get && req.body == Client.NoBody
    ensures QueryParams.Serialize(options).None? ==> req.uri == "/repos/" + d.owner + "/" + d.repo + "/deployments"
    ensures QueryParams.Serialize(options).Some? ==> req.uri == "/repos/" + d.owner + "/" + d.repo + "/deployments" + "?" + QueryParams.Serialize(options).value
  {
    Client.GetCall(QueryParams.WithQuery(DeploymentsPath(d, ""), options))
  }

  /** `Deployments::create`. */
  function Create(d: DeploymentsApi, o: DeploymentOptions): (req: Client.Call)
    ensures req == Client.Call(Client.Post, "/repos/" + d.owner + "/" + d.repo + "/deployments", Client.JsonBody(DeploymentOptionsJson(o)))
  {
    Client.PostCall(DeploymentsPath(d, ""), DeploymentOptionsJson(o))
  }

  /** `DeploymentStatuses::list`. */
  function ListStatuses(s: DeploymentStatusesApi): (req: Client.Call)
    ensures req == Client.Call(Client.Get, "/repos/" + s.owner + "/" + s.repo + "/deployments/" + Text.NatToString(s.id) + "/statuses", Client.NoBody)
  {
    Client.GetCall(StatusesPath(s, ""))
  }

  /** `DeploymentStatuses::create`. */
  function CreateStatus(s: DeploymentStatusesApi, o: DeploymentStatusOptions): (req: Client.Call)
    ensures req == Client.Call(Client.Post, "/repos/" + s.owner + "/" + s.repo + "/deployments/" + Text.NatToString(s.id) + "/statuses", Client.JsonBody(DeploymentStatusOptionsJson(o)))
  {
    Client.PostCall(StatusesPath(s, ""), DeploymentStatusOptionsJson(o))
  }

  /** A deployment's statuses live below the deployment, by id; listing and creating share one
      URI on each level, and listing without options uses the bare path. */
  lemma DeploymentPaths(d: DeploymentsApi, id: nat, o: DeploymentOptions, so: DeploymentStatusOptions)
    ensures StatusesPath(Statuses(d, id), "") == DeploymentsPath(d, "/" + Text.NatToString(id) + "/statuses")
    ensures List(d, []).uri == Create(d, o).uri == "/repos/" + d.owner + "/" + d.repo + "/deployments"
    ensures ListStatuses(Statuses(d, id)).uri == CreateStatus(Statuses(d, id), so).uri
    ensures Create(d, o).verb == Client.Post && CreateStatus(Statuses(d, id), so).verb == Client.Post
  {
  }

  /** `DeploymentOptions`: the reference is always written (as "ref"); the rest is skipped
      when `None`. The payload is JSON text kept as a string. */
  datatype DeploymentOptions = DeploymentOptions(
    commitRef: string,
    task: Option<string>,
    autoMerge: Option<bool>,
    requiredContexts: Option<seq<string>>,
    payload: Option<string>,
    environment: Option<string>,
    description: Option<string>)

  const DeploymentOptionsKind := KRec([
    Req("ref", KStr), OptSkip("task", KStr), OptSkip("auto_merge", KBool),
    OptSkip("required_contexts", KList(KStr)), OptSkip("payload", KStr), OptSkip("environment", KStr),
    OptSkip("description", KStr)])

  function ContextsVal(contexts: Option<seq<string>>): Option<Val> {
    if contexts.Some? then Some(StrListVal(contexts.value)) else None
  }

  /** The entry the required contexts write: none when `None`, else the array of them. */
  function ContextsEntry(contexts: Option<seq<string>>): (r: seq<(string, JValue)>)
    ensures |r| <= 1
  {
    if contexts.Some? then [("required_contexts", JArr(JStrs(contexts.value)))] else []
  }

  function DeploymentOptionsVal(o: DeploymentOptions): (v: Val)
    ensures v.VRec? && |v.slots| == |DeploymentOptionsKind.fields|
  {
    VRec([Some(VStr(o.commitRef)), OptStrVal(o.task), OptBoolVal(o.autoMerge), ContextsVal(o.requiredContexts),
      OptStrVal(o.payload), OptStrVal(o.environment), OptStrVal(o.description)])
  }

  function DeploymentOptionsJson(o: DeploymentOptions): JValue {
    Encode(DeploymentOptionsKind, DeploymentOptionsVal(o))
  }

  /** The entry each field of the body writes. */
  lemma DeploymentOptionsSlots(o: DeploymentOptions)
    ensures var k, v := DeploymentOptionsKind, DeploymentOptionsVal(o);
      EncodeSlot(k.fields[0], v.slots[0]) == [("ref", JStr(o.commitRef))] &&
      EncodeSlot(k.fields[1], v.slots[1]) == OptEntry("task", o.task) &&
      EncodeSlot(k.fields[2], v.slots[2]) == OptBoolEntry("auto_merge", o.autoMerge) &&
      EncodeSlot(k.fields[3], v.slots[3]) == ContextsEntry(o.requiredContexts) &&
      EncodeSlot(k.fields[4], v.slots[4]) == OptEntry("payload", o.payload) &&
      EncodeSlot(k.fields[5], v.slots[5]) == OptEntry("environment", o.environment) &&
      EncodeSlot(k.fields[6], v.slots[6]) == OptEntry("description", o.description)
  {
    if o.requiredContexts.Some? {
      EncodeStrList(o.requiredContexts.value);
    }
  }

  /** The entries of the body from the payload on. */
  lemma DeploymentOptionsTail(o: DeploymentOptions)
    ensures EncodeFields(DeploymentOptionsKind, DeploymentOptionsVal(o).slots, 4) ==
      OptEntry("payload", o.payload) + OptEntry("environment", o.environment) + OptEntry("description", o.description)
  {
    var k, s := DeploymentOptionsKind, DeploymentOptionsVal(o).slots;
    var e4, e5, e6 := OptEntry("payload", o.payload), OptEntry("environment", o.environment), OptEntry("description", o.description);
    DeploymentOptionsSlots(o);
    EncodeFieldsCons(k, s, 4);
    EncodeFieldsCons(k, s, 5);
    AppendAssoc(e4, e5, EncodeFields(k, s, 6));
    EncodeFieldsCons(k, s, 6);
    AppendAssoc(e4 + e5, e6, EncodeFields(k, s, 7));
    EncodeFieldsEnd(k, s);
  }

  /** The entries of the body up to the required contexts, then the rest. */
  lemma DeploymentOptionsHead(o: DeploymentOptions)
    ensures EncodeFields(DeploymentOptionsKind, DeploymentOptionsVal(o).slots, 0) ==
      [("ref", JStr(o.commitRef))] + OptEntry("task", o.task) + OptBoolEntry("auto_merge", o.autoMerge) +
      ContextsEntry(o.requiredContexts) + EncodeFields(DeploymentOptionsKind, DeploymentOptionsVal(o).slots, 4)
  {
    var k, s := DeploymentOptionsKind, DeploymentOptionsVal(o).slots;
    var e0, e1, e2 := [("ref", JStr(o.commitRef))], OptEntry("task", o.task), OptBoolEntry("auto_merge", o.autoMerge);
    var e3 := ContextsEntry(o.requiredContexts);
    DeploymentOptionsSlots(o);
    EncodeFieldsCons(k, s, 0);
    EncodeFieldsCons(k, s, 1);
    AppendAssoc(e0, e1, EncodeFields(k, s, 2));
    EncodeFieldsCons(k, s, 2);
    AppendAssoc(e0 + e1, e2, EncodeFields(k, s, 3));
    EncodeFieldsCons(k, s, 3);
    AppendAssoc(e0 + e1 + e2, e3, EncodeFields(k, s, 4));
  }

  /** The body lists ref, task, auto_merge, required_contexts, payload, environment and
      description in that order, leaving out each one that is `None`. */
  lemma DeploymentOptionsJsonFields(o: DeploymentOptions)
    ensures DeploymentOptionsJson(o) == JObj([("ref", JStr(o.commitRef))] + OptEntry("task", o.task) +
      OptBoolEntry("auto_merge", o.autoMerge) + ContextsEntry(o.requiredContexts) +
      OptEntry("payload", o.payload) + OptEntry("environment", o.environment) +
      OptEntry("description", o.description))
  {
    var head := [("ref", JStr(o.commitRef))] + OptEntry("task", o.task) + OptBoolEntry("auto_merge", o.autoMerge) +
      ContextsEntry(o.requiredContexts);
    var e4, e5, e6 := OptEntry("payload", o.payload), OptEntry("environment", o.environment), OptEntry("description", o.description);
    DeploymentOptionsHead(o);
    DeploymentOptionsTail(o);
    AppendAssoc(head, e4 + e5, e6);
    AppendAssoc(head, e4, e5);
  }

  /** `DeploymentOptionsBuilder`: starts from the reference with everything else `None`. */
  class DeploymentOptionsBuilder {
    var options: DeploymentOptions

    /** `DeploymentOptions::builder(commit)`. */
    constructor (commit: string)
      ensures options == DeploymentOptions(commit, None, None, None, None, None, None)
    {
      options := DeploymentOptions(commit, None, None, None, None, None, None);
    }

    method SetTask(task: string)
      modifies this
      ensures options == old(options).(task := Some(task))
    {
      options := options.(task := Some(task));
    }

    method SetAutoMerge(autoMerge: bool)
      modifies this
      ensures options == old(options).(autoMerge := Some(autoMerge))
    {
      options := options.(autoMerge := Some(autoMerge));
    }

    /** `required_contexts`: the contexts, in the order given. */
    method SetRequiredContexts(contexts: seq<string>)
      modifies this
      ensures options == old(options).(requiredContexts := Some(contexts))
    {
      options := options.(requiredContexts := Some(contexts));
    }

    /** `payload`: the JSON text of the value, as serde_json writes it. `pl` is the JSON value
        the Rust value serializes to; the text is then sent as a string, encoded twice. */
    method SetPayload(pl: JValue)
      modifies this
      ensures options == old(options).(payload := Some(Render(pl)))
    {
      options := options.(payload := Some(Render(pl)));
    }

    method SetEnvironment(environment: string)
      modifies this
      ensures options == old(options).(environment := Some(environment))
    {
      options := options.(environment := Some(environment));
    }

    method SetDescription(description: string)
      modifies this
      ensures options == old(options).(description := Some(description))
    {
      options := options.(description := Some(description));
    }

    /** `build`: every field as the builder holds it. */
    function Build(): (o: DeploymentOptions)
      reads this
      ensures o == options
    {
      options
    }
  }

  /** The payload of the third example is a map from "user" to "atmos" and "room_id" to
      "123456", which a `BTreeMap` writes in key order; its JSON text, as the payload setter
      stores it. */
  lemma ExamplePayloadText(k1: string, v1: string, k2: string, v2: string)
    requires k1 == "room_id" && v1 == "123456" && k2 == "user" && v2 == "atmos"
    ensures Render(JObj([(k1, JStr(v1)), (k2, JStr(v2))])) == "{\"room_id\":\"123456\",\"user\":\"atmos\"}"
  {
    RenderTwoStrings(k1, v1, k2, v2);
    QuotedAs(k1, "\"room_id\"");
    QuotedAs(v1, "\"123456\"");
    QuotedAs(k2, "\"user\"");
    QuotedAs(v2, "\"atmos\"");
    PayloadPieces();
  }

  /** A plain string's quoted form, given as one piece of text. */
  lemma QuotedAs(s: string, q: string)
    requires Plain(s) && q == "\"" + s + "\""
    ensures Quote(s) == q
  {
    QuotePlain(s);
  }

  /** The pieces of the example payload's text, put together. */
  lemma PayloadPieces()
    ensures ("{" + ("\"room_id\"" + ":" + "\"123456\"") + ",") + (("\"user\"" + ":" + "\"atmos\"") + "}")
      == "{\"room_id\":\"123456\",\"user\":\"atmos\"}"
  {
    var first, second := "{\"room_id\":\"123456\",", "\"user\":\"atmos\"}";
    assert "{" + ("\"room_id\"" + ":" + "\"123456\"") + "," == first;
    assert ("\"user\"" + ":" + "\"atmos\"") + "}" == second;
    assert first + second == "{\"room_id\":\"123456\",\"user\":\"atmos\"}";
  }

  /** The first deployment request example: the reference alone. */
  method BareDeploymentRequest() returns (body: JValue)
    ensures body == JObj([("ref", JStr("test"))])
  {
    var b := new DeploymentOptionsBuilder("test");
    body := DeploymentOptionsJson(b.Build());
    DeploymentOptionsJsonFields(b.Build());
  }

  /** The second deployment request example: the reference and a task. */
  method TaskDeploymentRequest() returns (body: JValue)
    ensures body == JObj([("ref", JStr("test")), ("task", JStr("launchit"))])
  {
    var b := new DeploymentOptionsBuilder("test");
    b.SetTask("launchit");
    body := DeploymentOptionsJson(b.Build());
    DeploymentOptionsJsonFields(b.Build());
  }

  /** The third deployment request example: a description and a payload, which is written
      before the description, as a string holding the payload's JSON text. */
  method PayloadDeploymentRequest() returns (body: JValue)
    ensures body == JObj([("ref", JStr("topic-branch")),
      ("payload", JStr("{\"room_id\":\"123456\",\"user\":\"atmos\"}")), ("description", JStr("description"))])
  {
    var k1, v1, k2, v2 := "room_id", "123456", "user", "atmos";
    var payload := JObj([(k1, JStr(v1)), (k2, JStr(v2))]);
    var b := new DeploymentOptionsBuilder("topic-branch");
    b.SetDescription("description");
    b.SetPayload(payload);
    body := DeploymentOptionsJson(b.Build());
    DeploymentOptionsJsonFields(b.Build());
    ExamplePayloadText(k1, v1, k2, v2);
  }

  /** `DeploymentStatusOptions`: the state always, the rest skipped when `None`. */
  datatype DeploymentStatusOptions = DeploymentStatusOptions(
    state: Rep.StatusState, targetUrl: Option<string>, description: Option<string>)

  const DeploymentStatusOptionsKind := KRec([
    Req("state", KTag(Rep.StatusStateTags)), OptSkip("target_url", KStr), OptSkip("description", KStr)])

  function DeploymentStatusOptionsVal(o: DeploymentStatusOptions): (v: Val)
    ensures Conforms(DeploymentStatusOptionsKind, v)
  {
    VRec([Some(VTag(Rep.StatusStateTag(o.state))), OptStrVal(o.targetUrl), OptStrVal(o.description)])
  }

  function DeploymentStatusOptionsJson(o: DeploymentStatusOptions): JValue {
    Encode(DeploymentStatusOptionsKind, DeploymentStatusOptionsVal(o))
  }

  /** The body lists the state, then target_url and description when they are set. */
  lemma DeploymentStatusOptionsJsonFields(o: DeploymentStatusOptions)
    ensures DeploymentStatusOptionsJson(o) == JObj([("state", JStr(Rep.StatusStateTag(o.state)))] +
      OptEntry("target_url", o.targetUrl) + OptEntry("description", o.description))
  {
    var k, v := DeploymentStatusOptionsKind, DeploymentStatusOptionsVal(o);
    var e1, e2 := OptEntry("target_url", o.targetUrl), OptEntry("description", o.description);
    assert EncodeSlot(k.fields[0], v.slots[0]) == [("state", JStr(Rep.StatusStateTag(o.state)))];
    EncodeThree(k, v.slots, [("state", JStr(Rep.StatusStateTag(o.state)))], e1, e2);
  }

  /** What a server reads back from the body is the options that were sent. */
  lemma DeploymentStatusOptionsRoundTrip(o: DeploymentStatusOptions)
    ensures Decode(DeploymentStatusOptionsKind, DeploymentStatusOptionsJson(o)) == Ok(DeploymentStatusOptionsVal(o))
  {
    RoundTrip(DeploymentStatusOptionsKind, DeploymentStatusOptionsVal(o));
  }

  /** `DeploymentStatusOptionsBuilder`: starts from the state with both other fields `None`. */
  class DeploymentStatusOptionsBuilder {
    var options: DeploymentStatusOptions

    /** `DeploymentStatusOptions::builder(state)`. */
    constructor (state: Rep.StatusState)
      ensures options == DeploymentStatusOptions(state, None, None)
    {
      options := DeploymentStatusOptions(state, None, None);
    }

    method SetTargetUrl(url: string)
      modifies this
      ensures options == old(options).(targetUrl := Some(url))
    {
      options := options.(targetUrl := Some(url));
    }

    method SetDescription(description: string)
      modifies this
      ensures options == old(options).(description := Some(description))
    {
      options := options.(description := Some(description));
    }

    /** `build`: the three fields as the builder holds them. */
    function Build(): (o: DeploymentStatusOptions)
      reads this
      ensures o == options
    {
      options
    }
  }

  /** The three bodies of the deployment status examples, built through the builder. */
  method DeploymentStatusRequestExamples() returns (bare: JValue, targeted: JValue, described: JValue)
    ensures bare == JObj([("state", JStr("pending"))])
    ensures targeted == JObj([("state", JStr("pending")), ("target_url", JStr("http://host.com"))])
    ensures described == JObj([("state", JStr("pending")), ("target_url", JStr("http://host.com")),
      ("description", JStr("desc"))])
  {
    var a := new DeploymentStatusOptionsBuilder(Rep.Pending);
    bare := DeploymentStatusOptionsJson(a.Build());
    DeploymentStatusOptionsJsonFields(a.Build());
    var b := new DeploymentStatusOptionsBuilder(Rep.Pending);
    b.SetTargetUrl("http://host.com");
    targeted := DeploymentStatusOptionsJson(b.Build());
    DeploymentStatusOptionsJsonFields(b.Build());
    var c := new DeploymentStatusOptionsBuilder(Rep.Pending);
    c.SetTargetUrl("http://host.com");
    c.SetDescription("desc");
    described := DeploymentStatusOptionsJson(c.Build());
    DeploymentStatusOptionsJsonFields(c.Build());
  }

  /** `DeploymentListOptionsBuilder`: the options of a deployment listing. */
  class DeploymentListOptionsBuilder {
    var params: QueryParams.Params

    predicate Valid()
      reads this
    {
      QueryParams.Valid(params)
    }

    /** `DeploymentListOptions::builder`: no option set. */
    constructor ()
      ensures Valid() && params == []
    {
      params := [];
    }

    method SetSha(sha: string)
      requires Valid()
      modifies this
      ensures Valid() && params == QueryParams.Insert(old(params), "sha", sha)
    {
      params := QueryParams.Insert(params, "sha", sha);
    }

    /** `commit_ref`: stored under "ref". */
    method SetCommitRef(commitRef: string)
      requires Valid()
      modifies this
      ensures Valid() && params == QueryParams.Insert(old(params), "ref", commitRef)
    {
      params := QueryParams.Insert(params, "ref", commitRef);
    }

    method SetTask(task: string)
      requires Valid()
      modifies this
      ensures Valid() && params == QueryParams.Insert(old(params), "task", task)
    {
      params := QueryParams.Insert(params, "task", task);
    }

    method SetEnvironment(environment: string)
      requires Valid()
      modifies this
      ensures Valid() && params == QueryParams.Insert(old(params), "environment", environment)
    {
      params := QueryParams.Insert(params, "environment", environment);
    }

    /** `build`: the options hold a copy of the map. */
    function Build(): (options: QueryParams.Params)
      reads this
      ensures options == params
    {
      params
    }
  }

  /** A listing builder with nothing set serializes to `None`; one with only an environment
      to "environment=" and the name. */
  method ListOptionsExamples() returns (empty: Option<string>, production: Option<string>)
    ensures empty == None
    ensures production == Some("environment" + "=" + "production")
  {
    var a := new DeploymentListOptionsBuilder();
    empty := QueryParams.Serialize(a.Build());
    var b := new DeploymentListOptionsBuilder();
    b.SetEnvironment("production");
    QueryParams.SerializeSafeOne("environment", "production");
    production := QueryParams.Serialize(b.Build());
  }

  /** `Deployment`: "ref" is read into `commit_ref`, the payload is any JSON value, and only
      the description is optional. */
  const DeploymentKind := KRec([
    Req("url", KStr), Req("id", U64), Req("sha", KStr), Req("ref", KStr), Req("task", KStr),
    Req("payload", KAny), Req("environment", KStr), Opt("description", KStr),
    Req("creator", Users.UserKind), Req("created_at", KStr), Req("updated_at", KStr),
    Req("statuses_url", KStr), Req("repository_url", KStr)])

  /** Only the description of a deployment may be missing. */
  lemma DeploymentFields(entries: seq<(string, JValue)>, n: nat)
    requires n < |DeploymentKind.fields| && DeploymentKind.fields[n].wire !in Keys(entries)
    ensures n != 7 ==> Decode(DeploymentKind, JObj(entries)).Err?
    ensures n == 7 && Decode(DeploymentKind, JObj(entries)).Ok? ==> Decode(DeploymentKind, JObj(entries)).value.slots[7] == None
  {
    AbsentField(DeploymentKind, entries, n);
  }

  /** Whatever JSON value the payload holds, `null` included, it is accepted and kept as read. */
  lemma DeploymentPayloadAny(entries: seq<(string, JValue)>, j: JValue)
    requires Occurrences(entries, "payload") == Once(j)
    ensures DecodeSlot(DeploymentKind.fields[5], entries) == Ok(Some(VAny(Normalize(j))))
  {
    DecodeSlotCases(DeploymentKind.fields[5], entries);
  }

  /** `DeploymentStatus`: the state is one of the commit status tags; target_url and
      description are optional. */
  const DeploymentStatusKind := KRec([
    Req("url", KStr), Req("created_at", KStr), Req("updated_at", KStr), Req("state", KTag(Rep.StatusStateTags)),
    Opt("target_url", KStr), Opt("description", KStr), Req("id", U64), Req("deployment_url", KStr),
    Req("repository_url", KStr), Req("creator", Users.UserKind)])

  /** A deployment status missing target_url or description reads them as `None`; one with a
      state that is not a commit status tag does not decode. */
  lemma DeploymentStatusFields(entries: seq<(string, JValue)>, t: string)
    ensures "target_url" !in Keys(entries) && Decode(DeploymentStatusKind, JObj(entries)).Ok? ==>
      Decode(DeploymentStatusKind, JObj(entries)).value.slots[4] == None
    ensures "description" !in Keys(entries) && Decode(DeploymentStatusKind, JObj(entries)).Ok? ==>
      Decode(DeploymentStatusKind, JObj(entries)).value.slots[5] == None
    ensures Occurrences(entries, "state") == Once(JStr(t)) && t !in Rep.StatusStateTags ==>
      Decode(DeploymentStatusKind, JObj(entries)).Err?
  {
    if "target_url" !in Keys(entries) { AbsentField(DeploymentStatusKind, entries, 4); }
    if "description" !in Keys(entries) { AbsentField(DeploymentStatusKind, entries, 5); }
    DecodeSlotCases(DeploymentStatusKind.fields[3], entries);
    DecodeRecord(DeploymentStatusKind, entries);
  }
}
