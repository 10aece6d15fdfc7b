/** Issues of a repository: listing them with options, creating and editing them, the labels of
    one issue, and the issue record. */
module Issues {
  import opened Wrappers
  import opened Json
  import opened Schema
  import Text
  import UrlEncoding
  import QueryParams
  import Client
  import Users
  import Labels

  /** `Sort`: the orders an issue listing offers. The listing's `State` has the same three names
      as the crate-wide one and is `Client.State` here. */
  datatype Sort = Created | Updated | Comments

  function SortText(s: Sort): string {
    match s
    case Created => "created"
    case Updated => "updated"
    case Comments => "comments"
  }

  /** The inverse of `SortText`: each name belongs to exactly one variant. */
  function ParseSort(t: string): (r: Option<Sort>)
    ensures forall s :: r == Some(s) <==> SortText(s) == t
  {
    match t
    case "created" => Some(Created)
    case "updated" => Some(Updated)
    case "comments" => Some(Comments)
    case _ => None
  }

  /** `Sort::default()`. */
  function DefaultSort(): (s: Sort)
    ensures SortText(s) == "created"
  {
    Created
  }

  /** `Issues`: the issues of one repository. */
  datatype IssuesApi = IssuesApi(owner: string, repo: string)

  function IssuesPath(i: IssuesApi, more: string): string {
    "/repos/" + i.owner + "/" + i.repo + "/issues" + more
  }

  /** `IssueRef`: one issue, by number. */
  datatype IssueRef = IssueRef(owner: string, repo: string, number: nat)

  function IssueRefPath(r: IssueRef, more: string): string {
    "/repos/" + r.owner + "/" + r.repo + "/issues/" + Text.NatToString(r.number) + more
  }

  /** `IssueLabels`: the labels of one issue. */
  datatype IssueLabels = IssueLabels(owner: string, repo: string, number: nat)

  function LabelsPath(l: IssueLabels, more: string): string {
    "/repos/" + l.owner + "/" + l.repo + "/issues/" + Text.NatToString(l.number) + "/labels" + more
  }

  /** `Issues::get`. */
  function Get(i: IssuesApi, number: nat): (r: IssueRef)
    ensures r.number == number
    ensures IssueRefPath(r, "") == IssuesPath(i, "/" + Text.NatToString(number))
  {
    IssueRef(i.owner, i.repo, number)
  }

  /** `IssueRef::labels`. */
  function LabelsOf(r: IssueRef): IssueLabels {
    IssueLabels(r.owner, r.repo, r.number)
  }

  /** `Issues::create`. */
  function Create(i: IssuesApi, o: IssueOptions): (req: Client.Call)
    ensures req == Client.Call(Client.Post, "/repos/" + i.owner + "/" + i.repo + "/issues", Client.JsonBody(IssueOptionsJson(o)))
  {
    Client.PostCall(IssuesPath(i, ""), IssueOptionsJson(o))
  }

  /** `Issues::list`: the path, then "?" and the query only when some option is set. */
  function List(i: IssuesApi, options: QueryParams.Params): (req: Client.Call)
    ensures req.verb == Client.Get && req.body == Client.NoBody
    ensures QueryParams.Serialize(options).None? ==> req.uri == "/repos/" + i.owner + "/" + i.repo + "/issues"
    ensures QueryParams.Serialize(options).Some? ==> req.uri == "/repos/" + i.owner + "/" + i.repo + "/issues" + "?" + QueryParams.Serialize(options).value
  {
    Client.GetCall(QueryParams.WithQuery(IssuesPath(i, ""), options))
  }

  /** `IssueRef::edit`. */
  function Edit(r: IssueRef, o: IssueOptions): (req: Client.Call)
    ensures req == Client.Call(Client.Patch, "/repos/" + r.owner + "/" + r.repo + "/issues/" + Text.NatToString(r.number), Client.JsonBody(IssueOptionsJson(o)))
  {
    Client.PatchCall(IssueRefPath(r, ""), IssueOptionsJson(o))
  }

  /** `IssueLabels::add`: the names as a JSON array of strings. */
  function AddLabels(l: IssueLabels, labels: seq<string>): (req: Client.Call)
    ensures req == Client.Call(Client.Post, "/repos/" + l.owner + "/" + l.repo + "/issues/" + Text.NatToString(l.number) + "/labels", Client.JsonBody(JArr(JStrs(labels))))
  {
    Client.PostCall(LabelsPath(l, ""), JArr(JStrs(labels)))
  }

  /** `IssueLabels::remove`. */
  function RemoveLabel(l: IssueLabels, name: string): (req: Client.Call)
    ensures req == Client.Call(Client.Delete, "/repos/" + l.owner + "/" + l.repo + "/issues/" + Text.NatToString(l.number) + "/labels/" + name, Client.NoBody)
  {
    Client.DeleteCall(LabelsPath(l, "/" + name))
  }

  /** `IssueLabels::set`: replaces every label; an empty list clears them. */
  function SetLabels(l: IssueLabels, labels: seq<string>): (req: Client.Call)
    ensures req == Client.Call(Client.Put, "/repos/" + l.owner + "/" + l.repo + "/issues/" + Text.NatToString(l.number) + "/labels", Client.JsonBody(JArr(JStrs(labels))))
  {
    Client.PutCall(LabelsPath(l, ""), JArr(JStrs(labels)))
  }

  /** `IssueLabels::clear`. */
  function ClearLabels(l: IssueLabels): (req: Client.Call)
    ensures req == Client.Call(Client.Delete, "/repos/" + l.owner + "/" + l.repo + "/issues/" + Text.NatToString(l.number) + "/labels", Client.NoBody)
  {
    Client.DeleteCall(LabelsPath(l, ""))
  }

  /** An issue's labels live below the issue's own URI, which lies below the repository's
      issues; removing one label appends its name, clearing them all uses the bare path. */
  lemma IssuePaths(i: IssuesApi, number: nat, name: string, labels: seq<string>)
    ensures IssueRefPath(Get(i, number), "") == IssuesPath(i, "/" + Text.NatToString(number))
    ensures LabelsPath(LabelsOf(Get(i, number)), "") == IssueRefPath(Get(i, number), "/labels")
    ensures RemoveLabel(LabelsOf(Get(i, number)), name).uri ==
      IssueRefPath(Get(i, number), "/labels") + "/" + name
    ensures ClearLabels(LabelsOf(Get(i, number))).uri == AddLabels(LabelsOf(Get(i, number)), labels).uri
    ensures AddLabels(LabelsOf(Get(i, number)), labels).verb == Client.Post
    ensures SetLabels(LabelsOf(Get(i, number)), labels).verb == Client.Put
    ensures ClearLabels(LabelsOf(Get(i, number))).verb == Client.Delete
  {
    var l := LabelsOf(Get(i, number));
    assert LabelsPath(l, "/" + name) == LabelsPath(l, "") + "/" + name;
  }

  /** A listing without options requests the bare path; with options, the path, a '?' and the
      encoded options. */
  lemma ListUri(i: IssuesApi, options: QueryParams.Params)
    ensures |options| == 0 ==> List(i, options).uri == "/repos/" + i.owner + "/" + i.repo + "/issues"
    ensures |options| > 0 ==> (List(i, options).uri ==
      IssuesPath(i, "") + "?" + UrlEncoding.FormPairs(options))
    ensures Create(i, IssueOptions("", None, None, None, [])).uri == List(i, []).uri
  {
  }

  /** The value `labels` stores: the names joined by ",". */
  function LabelsText(labels: seq<string>): string {
    Text.Join(labels, ",")
  }

  /** Sent alone, labels made of safe characters appear as `labels=` and the names joined by an
      encoded comma: ["foo", "bar"] is sent as "labels=foo%2Cbar". */
  lemma LabelsQuery(labels: seq<string>)
    requires forall n, i :: 0 <= n < |labels| && 0 <= i < |labels[n]| ==> UrlEncoding.FormSafeChar(labels[n][i])
    ensures QueryParams.Serialize(QueryParams.Insert([], "labels", LabelsText(labels))) ==
      Some("labels" + "=" + Text.Join(labels, "%2C"))
  {
    var key := "labels";
    assert UrlEncoding.FormEncode(LabelsText(labels)) == Text.Join(labels, "%2C") by {
      QueryParams.FormEncodeCommaList(labels);
    }
    assert UrlEncoding.FormEncode(key) == key by {
      UrlEncoding.FormEncodeSafe(key);
    }
    QueryParams.SerializeOne(key, LabelsText(labels));
  }

  /** `IssueListOptionsBuilder`: the options of an issue listing. */
  class IssueListOptionsBuilder {
    var params: QueryParams.Params

    predicate Valid()
      reads this
    {
      QueryParams.Valid(params)
    }

    /** `new`: no option set. */
    constructor ()
      ensures Valid() && params == []
    {
      params := [];
    }

    /** `state`: its name under "state". */
    method SetState(state: Client.State)
      requires Valid()
      modifies this
      ensures Valid() && params == QueryParams.Insert(old(params), "state", Client.StateText(state))
    {
      params := QueryParams.Insert(params, "state", Client.StateText(state));
    }

    /** `sort`: its name under "sort". */
    method SetSort(sort: Sort)
      requires Valid()
      modifies this
      ensures Valid() && params == QueryParams.Insert(old(params), "sort", SortText(sort))
    {
      params := QueryParams.Insert(params, "sort", SortText(sort));
    }

    /** `asc`: `direction(Asc)`. */
    method Asc()
      requires Valid()
      modifies this
      ensures Valid() && params == QueryParams.Insert(old(params), "direction", "asc")
    {
      Direction(Client.Asc);
    }

    /** `desc`: `direction(Desc)`. */
    method Desc()
      requires Valid()
      modifies this
      ensures Valid() && params == QueryParams.Insert(old(params), "direction", "desc")
    {
      Direction(Client.Desc);
    }

    /** `direction`: the direction's name under "direction". */
    method Direction(direction: Client.SortDirection)
      requires Valid()
      modifies this
      ensures Valid() && params == QueryParams.Insert(old(params), "direction", Client.SortDirectionText(direction))
    {
      params := QueryParams.Insert(params, "direction", Client.SortDirectionText(direction));
    }

    /** `assignee`: the login under "assignee", as given. */
    method SetAssignee(assignee: string)
      requires Valid()
      modifies this
      ensures Valid() && params == QueryParams.Insert(old(params), "assignee", assignee)
    {
      params := QueryParams.Insert(params, "assignee", assignee);
    }

    /** `creator`: the login under "creator", as given. */
    method SetCreator(creator: string)
      requires Valid()
      modifies this
      ensures Valid() && params == QueryParams.Insert(old(params), "creator", creator)
    {
      params := QueryParams.Insert(params, "creator", creator);
    }

    /** `mentioned`: the login under "mentioned", as given. */
    method SetMentioned(mentioned: string)
      requires Valid()
      modifies this
      ensures Valid() && params == QueryParams.Insert(old(params), "mentioned", mentioned)
    {
      params := QueryParams.Insert(params, "mentioned", mentioned);
    }

    /** `labels`: the names joined by "," under "labels", in the order given. */
    method SetLabels(labels: seq<string>)
      requires Valid()
      modifies this
      ensures Valid() && params == QueryParams.Insert(old(params), "labels", LabelsText(labels))
    {
      params := QueryParams.Insert(params, "labels", LabelsText(labels));
    }

    /** `since`: the timestamp under "since", as given. */
    method SetSince(since: string)
      requires Valid()
      modifies this
      ensures Valid() && params == QueryParams.Insert(old(params), "since", since)
    {
      params := QueryParams.Insert(params, "since", since);
    }

    /** `build`: the options hold a copy of the map. */
    function Build(): (options: QueryParams.Params)
      reads this
      ensures options == params
    {
      params
    }
  }

  /** A builder with nothing set serializes to `None`. */
  method EmptyListOptions() returns (query: Option<string>)
    ensures query == None
  {
    var b := new IssueListOptionsBuilder();
    query := QueryParams.Serialize(b.Build());
  }

  /** A builder with only the closed state set serializes to "state=closed". */
  method ClosedListOptions() returns (query: Option<string>)
    ensures query == Some("state" + "=" + "closed")
  {
    var b := new IssueListOptionsBuilder();
    b.SetState(Client.Closed);
    QueryParams.SerializeSafeOne("state", "closed");
    query := QueryParams.Serialize(b.Build());
  }

  /** A builder with only the labels "foo" and "bar" set serializes to "labels=foo%2Cbar". */
  method LabelsListOptions() returns (query: Option<string>)
    ensures query == Some("labels" + "=" + "foo%2Cbar")
  {
    var b := new IssueListOptionsBuilder();
    var names := ["foo", "bar"];
    b.SetLabels(names);
    assert Text.Join(names, "%2C") == "foo%2Cbar" by {
      Text.JoinTwo(names[0], names[1], "%2C");
      assert [names[0], names[1]] == names;
    }
    LabelsQuery(names);
    query := QueryParams.Serialize(b.Build());
  }

  /** `IssueOptions`: the body that creates or edits an issue. */
  datatype IssueOptions = IssueOptions(
    title: string,
    body: Option<string>,
    assignee: Option<string>,
    milestone: Option<Uint64>,
    labels: seq<string>)

  /** Body, assignee and milestone are skipped when `None`; the labels are always written. */
  const IssueOptionsKind := KRec([
    Req("title", KStr), OptSkip("body", KStr), OptSkip("assignee", KStr), OptSkip("milestone", U64),
    Req("labels", KList(KStr))])

  /** The milestone number as the body writes it. */
  function Milestone(m: Option<Uint64>): (r: Option<int>)
    ensures r.Some? <==> m.Some?
    ensures r.Some? ==> 0 <= r.value < 0x1_0000_0000_0000_0000 && r.value == m.value as int
  {
    if m.Some? then Some(m.value as int) else None
  }

  function IssueOptionsVal(o: IssueOptions): (v: Val)
    ensures Conforms(IssueOptionsKind, v)
  {
    VRec([Some(VStr(o.title)), OptStrVal(o.body), OptStrVal(o.assignee),
      OptIntVal(Milestone(o.milestone)), Some(StrListVal(o.labels))])
  }

  function IssueOptionsJson(o: IssueOptions): JValue {
    Encode(IssueOptionsKind, IssueOptionsVal(o))
  }

  /** `IssueOptions::new`: the fields as given, the labels in their order. */
  function NewIssueOptions(title: string, body: Option<string>, assignee: Option<string>,
    milestone: Option<Uint64>, labels: seq<string>): (o: IssueOptions)
    ensures IssueOptionsVal(o) == VRec([Some(VStr(title)), OptStrVal(body), OptStrVal(assignee),
      OptIntVal(Milestone(milestone)), Some(StrListVal(labels))])
  {
    IssueOptions(title, body, assignee, milestone, labels)
  }

  /** The body lists title, body, assignee, milestone and labels in that order, leaving out the
      three optional fields when `None` and always writing the labels as an array of their
      names, in order, even when there are none. */
  lemma IssueOptionsJsonFields(o: IssueOptions)
    ensures IssueOptionsJson(o) == JObj([("title", JStr(o.title))] + OptEntry("body", o.body) +
      OptEntry("assignee", o.assignee) +
      OptIntEntry("milestone", Milestone(o.milestone)) +
      [("labels", JArr(JStrs(o.labels)))])
  {
    IssueOptionsSlots(o);
    EncodeFive(IssueOptionsKind, IssueOptionsVal(o).slots, [("title", JStr(o.title))], OptEntry("body", o.body),
      OptEntry("assignee", o.assignee), OptIntEntry("milestone", Milestone(o.milestone)),
      [("labels", JArr(JStrs(o.labels)))]);
  }

  /** The entry each field of the body writes. */
  lemma IssueOptionsSlots(o: IssueOptions)
    ensures EncodeSlot(IssueOptionsKind.fields[0], IssueOptionsVal(o).slots[0]) == [("title", JStr(o.title))]
    ensures EncodeSlot(IssueOptionsKind.fields[1], IssueOptionsVal(o).slots[1]) == OptEntry("body", o.body)
    ensures EncodeSlot(IssueOptionsKind.fields[2], IssueOptionsVal(o).slots[2]) == OptEntry("assignee", o.assignee)
    ensures EncodeSlot(IssueOptionsKind.fields[3], IssueOptionsVal(o).slots[3]) ==
      OptIntEntry("milestone", Milestone(o.milestone))
    ensures EncodeSlot(IssueOptionsKind.fields[4], IssueOptionsVal(o).slots[4]) == [("labels", JArr(JStrs(o.labels)))]
  {
    EncodeStrList(o.labels);
  }

  /** What a server reads back from the body is the options that were sent. */
  lemma IssueOptionsRoundTrip(o: IssueOptions)
    ensures Decode(IssueOptionsKind, IssueOptionsJson(o)) == Ok(IssueOptionsVal(o))
  {
    RoundTrip(IssueOptionsKind, IssueOptionsVal(o));
  }

  /** `Issue`: eighteen fields, of which only assignee and closed_at are optional; the body is a
      plain string. */
  const IssueFields0 := [
    Req("id", U64), Req("url", KStr), Req("labels_url", KStr), Req("comments_url", KStr),
    Req("events_url", KStr), Req("html_url", KStr), Req("number", U64), Req("state", KStr),
    Req("title", KStr), Req("body", KStr)]
  const IssueFields1 := [
    Req("user", Users.UserKind), Req("labels", KList(Labels.LabelKind)), Opt("assignee", Users.UserKind),
    Req("locked", KBool), Req("comments", U64), Opt("closed_at", KStr), Req("created_at", KStr),
    Req("updated_at", KStr)]

  const IssueKind := KRec(IssueFields0 + IssueFields1)

  /** An issue without a body, a user or labels does not decode, while a missing assignee or
      closing time reads as `None`. */
  lemma IssueOptional(entries: seq<(string, JValue)>)
    ensures "body" !in Keys(entries) ==> Decode(IssueKind, JObj(entries)).Err?
    ensures "user" !in Keys(entries) ==> Decode(IssueKind, JObj(entries)).Err?
    ensures "labels" !in Keys(entries) ==> Decode(IssueKind, JObj(entries)).Err?
    ensures "assignee" !in Keys(entries) && Decode(IssueKind, JObj(entries)).Ok? ==>
      Decode(IssueKind, JObj(entries)).value.slots[12] == None
    ensures "closed_at" !in Keys(entries) && Decode(IssueKind, JObj(entries)).Ok? ==>
      Decode(IssueKind, JObj(entries)).value.slots[15] == None
  {
    var k := IssueKind;
    assert k.fields[9] == Req("body", KStr) && k.fields[10] == Req("user", Users.UserKind);
    assert k.fields[11] == Req("labels", KList(Labels.LabelKind));
    assert k.fields[12] == Opt("assignee", Users.UserKind) && k.fields[15] == Opt("closed_at", KStr);
    if "body" !in Keys(entries) { AbsentField(k, entries, 9); }
    if "user" !in Keys(entries) { AbsentField(k, entries, 10); }
    if "labels" !in Keys(entries) { AbsentField(k, entries, 11); }
    if "assignee" !in Keys(entries) { AbsentField(k, entries, 12); }
    if "closed_at" !in Keys(entries) { AbsentField(k, entries, 15); }
  }
}
