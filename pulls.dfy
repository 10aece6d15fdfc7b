/** Pull requests: the requests on one pull request and on a repository's list of them, the
    edit, create and list options, and the records GitHub returns. */
module Pulls {
  import opened Wrappers
  import opened Json
  import opened Schema
  import Text
  import QueryParams
  import Client
  import Users
  import Labels
  import Issues

  /** `Sort`: the orders GitHub offers for pull requests. The list options below take the
      issue listing's sort instead. */
  datatype Sort = Created | Updated | Popularity | LongRunning

  function SortText(s: Sort): string {
    match s
    case Created => "created"
    case Updated => "updated"
    case Popularity => "popularity"
    case LongRunning => "long-running"
  }

  /** The inverse of `SortText`: each name belongs to exactly one variant. */
  function ParseSort(t: string): (r: Option<Sort>)
    ensures forall s :: r == Some(s) <==> SortText(s) == t
  {
    match t
    case "created" => Some(Created)
    case "updated" => Some(Updated)
    case "popularity" => Some(Popularity)
    case "long-running" => Some(LongRunning)
    case _ => None
  }

  /** `Sort::default()`. */
  function DefaultSort(): (s: Sort)
    ensures SortText(s) == "created"
  {
    Created
  }

  /** `PullRequest`: one pull request, by number. */
  datatype PullRequest = PullRequest(owner: string, repo: string, number: nat)

  function PullPath(p: PullRequest, more: string): string {
    "/repos/" + p.owner + "/" + p.repo + "/pulls/" + Text.NatToString(p.number) + more
  }

  /** `PullRequests`: the pull requests of one repository. */
  datatype PullRequests = PullRequests(owner: string, repo: string)

  function PullsPath(p: PullRequests, more: string): string {
    "/repos/" + p.owner + "/" + p.repo + "/pulls" + more
  }

  /** `PullRequests::get`. */
  function GetPull(p: PullRequests, number: nat): PullRequest {
    PullRequest(p.owner, p.repo, number)
  }

  /** `PullRequest::get`. */
  function Get(p: PullRequest): (req: Client.Call)
    ensures req == Client.Call(Client.Get, "/repos/" + p.owner + "/" + p.repo + "/pulls/" + Text.NatToString(p.number), Client.NoBody)
  {
    Client.GetCall(PullPath(p, ""))
  }

  /** `PullRequest::edit`. */
  function Edit(p: PullRequest, o: PullEditOptions): (req: Client.Call)
    ensures req == Client.Call(Client.Patch, "/repos/" + p.owner + "/" + p.repo + "/pulls/" + Text.NatToString(p.number), Client.JsonBody(PullEditOptionsJson(o)))
  {
    Client.PatchCall(PullPath(p, ""), PullEditOptionsJson(o))
  }

  /** `PullRequest::open`: an edit that sets only the state, to "open". */
  function Open(p: PullRequest): (req: Client.Call)
    ensures req == Client.Call(Client.Patch, "/repos/" + p.owner + "/" + p.repo + "/pulls/" + Text.NatToString(p.number),
      Client.JsonBody(JObj([("state", JStr("open"))])))
  {
    PullEditOptionsJsonFields(PullEditOptions(None, None, Some("open")));
    Edit(p, PullEditOptions(None, None, Some("open")))
  }

  /** `PullRequest::close`: an edit that sets only the state, to "closed". */
  function Close(p: PullRequest): (req: Client.Call)
    ensures req == Client.Call(Client.Patch, "/repos/" + p.owner + "/" + p.repo + "/pulls/" + Text.NatToString(p.number),
      Client.JsonBody(JObj([("state", JStr("closed"))])))
  {
    PullEditOptionsJsonFields(PullEditOptions(None, None, Some("closed")));
    Edit(p, PullEditOptions(None, None, Some("closed")))
  }

  /** `PullRequest::files`. */
  function Files(p: PullRequest): (req: Client.Call)
    ensures req == Client.Call(Client.Get, "/repos/" + p.owner + "/" + p.repo + "/pulls/" + Text.NatToString(p.number) + "/files", Client.NoBody)
  {
    Client.GetCall(PullPath(p, "/files"))
  }

  /** `PullRequest::labels`: the labels of the issue with the same number. */
  function LabelsOf(p: PullRequest): Issues.IssueLabels {
    Issues.IssueLabels(p.owner, p.repo, p.number)
  }

  /** `PullRequests::create`. */
  function Create(p: PullRequests, o: PullOptions): (req: Client.Call)
    ensures req == Client.Call(Client.Post, "/repos/" + p.owner + "/" + p.repo + "/pulls", Client.JsonBody(PullOptionsJson(o)))
  {
    Client.PostCall(PullsPath(p, ""), PullOptionsJson(o))
  }

  /** `PullRequests::list`: the path, then "?" and the query only when some option is set. */
  function List(p: PullRequests, options: QueryParams.Params): (req: Client.Call)
    ensures req.verb == Client.Get && req.body == Client.NoBody
    ensures QueryParams.Serialize(options).None? ==> req.uri == "/repos/" + p.owner + "/" + p.repo + "/pulls"
    ensures QueryParams.Serialize(options).Some? ==> req.uri == "/repos/" + p.owner + "/" + p.repo + "/pulls" + "?" + QueryParams.Serialize(options).value
  {
    Client.GetCall(QueryParams.WithQuery(PullsPath(p, ""), options))
  }

  /** `PullRequests::iter`: the first request of the stream over every page. */
  function Iter(p: PullRequests, options: QueryParams.Params): (req: Client.Call)
    ensures req.verb == Client.Get && req.body == Client.NoBody
    ensures QueryParams.Serialize(options).None? ==> req.uri == "/repos/" + p.owner + "/" + p.repo + "/pulls"
    ensures QueryParams.Serialize(options).Some? ==> req.uri == "/repos/" + p.owner + "/" + p.repo + "/pulls" + "?" + QueryParams.Serialize(options).value
  {
    Client.GetCall(QueryParams.WithQuery(PullsPath(p, ""), options))
  }

  /** A pull request lives below its repository's pulls, its files below it; opening and
      closing are edits of its own URI whose body holds only the new state. */
  lemma PullCalls(p: PullRequests, number: nat)
    ensures PullPath(GetPull(p, number), "") == PullsPath(p, "/" + Text.NatToString(number))
    ensures Files(GetPull(p, number)).uri == Get(GetPull(p, number)).uri + "/files"
    ensures Open(GetPull(p, number)) == Client.Call(Client.Patch, Get(GetPull(p, number)).uri,
      Client.JsonBody(JObj([("state", JStr("open"))])))
    ensures Close(GetPull(p, number)) == Client.Call(Client.Patch, Get(GetPull(p, number)).uri,
      Client.JsonBody(JObj([("state", JStr("closed"))])))
  {
    var q := GetPull(p, number);
    assert PullPath(q, "/files") == PullPath(q, "") + "/files";
    PullEditOptionsJsonFields(PullEditOptions(None, None, Some("open")));
    PullEditOptionsJsonFields(PullEditOptions(None, None, Some("closed")));
  }

  /** A page and the stream start from the same request: the bare path without options, the
      path, '?' and the encoded options with them. */
  lemma ListUri(p: PullRequests, options: QueryParams.Params)
    ensures List(p, options) == Iter(p, options)
    ensures |options| == 0 ==> List(p, options).uri == "/repos/" + p.owner + "/" + p.repo + "/pulls"
    ensures |options| > 0 ==> (List(p, options).uri ==
      PullsPath(p, "") + "?" + QueryParams.Serialize(options).value)
  {
  }

  /** `PullEditOptions`: every field skipped when `None`. The state is a free string. */
  datatype PullEditOptions = PullEditOptions(title: Option<string>, body: Option<string>, state: Option<string>)

  const PullEditOptionsKind := KRec([OptSkip("title", KStr), OptSkip("body", KStr), OptSkip("state", KStr)])

  function PullEditOptionsVal(o: PullEditOptions): (v: Val)
    ensures Conforms(PullEditOptionsKind, v)
  {
    VRec([OptStrVal(o.title), OptStrVal(o.body), OptStrVal(o.state)])
  }

  function PullEditOptionsJson(o: PullEditOptions): JValue {
    Encode(PullEditOptionsKind, PullEditOptionsVal(o))
  }

  /** The body holds exactly the fields that are set, in the order title, body, state. */
  lemma PullEditOptionsJsonFields(o: PullEditOptions)
    ensures PullEditOptionsJson(o) ==
      JObj(OptEntry("title", o.title) + OptEntry("body", o.body) + OptEntry("state", o.state))
  {
    var k, v := PullEditOptionsKind, PullEditOptionsVal(o);
    var e0, e1, e2 := OptEntry("title", o.title), OptEntry("body", o.body), OptEntry("state", o.state);
    EncodeThree(k, v.slots, e0, e1, e2);
  }

  /** What a server reads back from the body is the options that were sent. */
  lemma PullEditOptionsRoundTrip(o: PullEditOptions)
    ensures Decode(PullEditOptionsKind, PullEditOptionsJson(o)) == Ok(PullEditOptionsVal(o))
  {
    RoundTrip(PullEditOptionsKind, PullEditOptionsVal(o));
  }

  /** `PullEditOptionsBuilder`: starts with every field `None`; each setter fills in its own. */
  class PullEditOptionsBuilder {
    var options: PullEditOptions

    /** `PullEditOptions::builder`. */
    constructor ()
      ensures options == PullEditOptions(None, None, None)
    {
      options := PullEditOptions(None, None, None);
    }

    method SetTitle(title: string)
      modifies this
      ensures options == old(options).(title := Some(title))
    {
      options := options.(title := Some(title));
    }

    method SetBody(body: string)
      modifies this
      ensures options == old(options).(body := Some(body))
    {
      options := options.(body := Some(body));
    }

    method SetState(state: string)
      modifies this
      ensures options == old(options).(state := Some(state))
    {
      options := options.(state := Some(state));
    }

    /** `build`: the three fields as the builder holds them. */
    function Build(): (o: PullEditOptions)
      reads this
      ensures o == options
    {
      options
    }
  }

  /** The three bodies of the edit examples, built through the builder: a title alone, a
      title and a body, and a state alone. */
  method EditExamples() returns (titled: JValue, described: JValue, closed: JValue)
    ensures titled == JObj([("title", JStr("test"))])
    ensures described == JObj([("title", JStr("test")), ("body", JStr("desc"))])
    ensures closed == JObj([("state", JStr("closed"))])
  {
    var a := new PullEditOptionsBuilder();
    a.SetTitle("test");
    titled := PullEditOptionsJson(a.Build());
    PullEditOptionsJsonFields(a.Build());
    var b := new PullEditOptionsBuilder();
    b.SetTitle("test");
    b.SetBody("desc");
    described := PullEditOptionsJson(b.Build());
    PullEditOptionsJsonFields(b.Build());
    var c := new PullEditOptionsBuilder();
    c.SetState("closed");
    closed := PullEditOptionsJson(c.Build());
    PullEditOptionsJsonFields(c.Build());
  }

  /** `PullOptions`: the body that opens a pull request. */
  datatype PullOptions = PullOptions(title: string, head: string, base: string, body: Option<string>)

  const PullOptionsKind := KRec([Req("title", KStr), Req("head", KStr), Req("base", KStr), OptSkip("body", KStr)])

  function PullOptionsVal(o: PullOptions): (v: Val)
    ensures Conforms(PullOptionsKind, v)
  {
    VRec([Some(VStr(o.title)), Some(VStr(o.head)), Some(VStr(o.base)), OptStrVal(o.body)])
  }

  function PullOptionsJson(o: PullOptions): JValue {
    Encode(PullOptionsKind, PullOptionsVal(o))
  }

  /** Title, head and base are always written, in that order; the body follows only when set. */
  lemma PullOptionsJsonFields(o: PullOptions)
    ensures PullOptionsJson(o) ==
      JObj([("title", JStr(o.title)), ("head", JStr(o.head)), ("base", JStr(o.base))] + OptEntry("body", o.body))
  {
    var k, v := PullOptionsKind, PullOptionsVal(o);
    var e3 := OptEntry("body", o.body);
    assert EncodeSlot(k.fields[0], v.slots[0]) == [("title", JStr(o.title))];
    assert EncodeSlot(k.fields[1], v.slots[1]) == [("head", JStr(o.head))];
    assert EncodeSlot(k.fields[2], v.slots[2]) == [("base", JStr(o.base))];
    EncodeFour(k, v.slots, [("title", JStr(o.title))], [("head", JStr(o.head))], [("base", JStr(o.base))], e3);
    assert [("title", JStr(o.title))] + [("head", JStr(o.head))] + [("base", JStr(o.base))] ==
      [("title", JStr(o.title)), ("head", JStr(o.head)), ("base", JStr(o.base))];
  }

  /** `PullListOptionsBuilder`: the options of a pull request listing. */
  class PullListOptionsBuilder {
    var params: QueryParams.Params

    predicate Valid()
      reads this
    {
      QueryParams.Valid(params)
    }

    /** `PullListOptions::builder`: no option set. */
    constructor ()
      ensures Valid() && params == []
    {
      params := [];
    }

    /** `state`: its name under "state". */
    method SetState(state: Client.State)
      requires Valid()
      modifies this
      ensures Valid() && params == QueryParams.Insert(old(params), "state", Client.StateText(state))
    {
      params := QueryParams.Insert(params, "state", Client.StateText(state));
    }

    /** `sort`: the issue listing's sort, by name, under "sort". */
    method SetSort(sort: Issues.Sort)
      requires Valid()
      modifies this
      ensures Valid() && params == QueryParams.Insert(old(params), "sort", Issues.SortText(sort))
    {
      params := QueryParams.Insert(params, "sort", Issues.SortText(sort));
    }

    /** `direction`: the direction's name under "direction". */
    method Direction(direction: Client.SortDirection)
      requires Valid()
      modifies this
      ensures Valid() && params == QueryParams.Insert(old(params), "direction", Client.SortDirectionText(direction))
    {
      params := QueryParams.Insert(params, "direction", Client.SortDirectionText(direction));
    }

    /** `build`: the options hold a copy of the map. */
    function Build(): (options: QueryParams.Params)
      reads this
      ensures options == params
    {
      params
    }
  }

  /** A listing builder with nothing set serializes to `None`. */
  method EmptyListOptions() returns (query: Option<string>)
    ensures query == None
  {
    var b := new PullListOptionsBuilder();
    query := QueryParams.Serialize(b.Build());
  }

  /** A listing builder with only the closed state set serializes to "state=closed". */
  method ClosedListOptions() returns (query: Option<string>)
    ensures query == Some("state" + "=" + "closed")
  {
    var b := new PullListOptionsBuilder();
    b.SetState(Client.Closed);
    QueryParams.SerializeSafeOne("state", "closed");
    query := QueryParams.Serialize(b.Build());
  }

  /** `Commit`: a branch head or base; "ref" is read into `commit_ref`. */
  const CommitKind := KRec([Req("label", KStr), Req("ref", KStr), Req("sha", KStr), Req("user", Users.UserKind)])

  /** Every field of a commit is required; a commit without "ref" does not decode. */
  lemma CommitRequired(entries: seq<(string, JValue)>, n: nat)
    requires n < 4 && CommitKind.fields[n].wire !in Keys(entries)
    ensures Decode(CommitKind, JObj(entries)).Err?
  {
    AbsentField(CommitKind, entries, n);
  }

  // `Pull`, in chunks of ten fields.
  /** Fields 0 to 9. */
  const PullFields0 := [
    Req("id", U64), Req("url", KStr), Req("html_url", KStr), Req("diff_url", KStr),
    Req("patch_url", KStr), Req("issue_url", KStr), Req("commits_url", KStr),
    Req("review_comments_url", KStr), Req("review_comment_url", KStr), Req("comments_url", KStr)]

  /** Fields 10 to 19. */
  const PullFields1 := [
    Req("statuses_url", KStr), Req("number", U64), Req("state", KStr), Req("title", KStr),
    Opt("body", KStr), Req("created_at", KStr), Req("updated_at", KStr), Opt("closed_at", KStr),
    Opt("merged_at", KStr), Req("head", CommitKind)]

  /** Fields 20 to 29. */
  const PullFields2 := [
    Req("base", CommitKind), Req("user", Users.UserKind), Opt("assignee", Users.UserKind),
    Req("assignees", KList(Users.UserKind)), Opt("merge_commit_sha", KStr), Opt("mergeable", KBool),
    Opt("merged_by", Users.UserKind), Opt("comments", U64), Opt("commits", U64), Opt("additions", U64)]

  /** Fields 30 to 32. */
  const PullFields3 := [Opt("deletions", U64), Opt("changed_files", U64), Req("labels", KList(Labels.LabelKind))]

  const PullKind := KRec(PullFields0 + PullFields1 + PullFields2 + PullFields3)

  /** The `Option` fields of `Pull`. */
  const PullOptionalWires := {"body", "closed_at", "merged_at", "assignee", "merge_commit_sha",
    "mergeable", "merged_by", "comments", "commits", "additions", "deletions", "changed_files"}

  lemma PullFieldsOptionalLow()
    ensures OptionalAmong(PullFields0 + PullFields1, PullOptionalWires)
  {
    var w := PullOptionalWires;
    assert OptionalAmong(PullFields0, w);
    assert OptionalAmong(PullFields1, w);
    OptionalConcat(PullFields0, PullFields1, w);
  }

  lemma PullFieldsOptionalHigh()
    ensures OptionalAmong(PullFields2 + PullFields3, PullOptionalWires)
  {
    var w := PullOptionalWires;
    assert OptionalAmong(PullFields2, w);
    assert OptionalAmong(PullFields3, w);
    OptionalConcat(PullFields2, PullFields3, w);
  }

  /** Exactly twelve fields of `Pull` are optional: the body, the closing and merging times,
      the assignee, the merge commit, mergeability, who merged and the five counts. */
  lemma PullOptionalExactly()
    ensures OptionalExactly(PullKind, PullOptionalWires)
  {
    var low, high := PullFields0 + PullFields1, PullFields2 + PullFields3;
    PullFieldsOptionalLow();
    PullFieldsOptionalHigh();
    OptionalConcat(low, high, PullOptionalWires);
    assert PullKind.fields == low + high;
  }

  /** A pull request missing any other field does not decode. */
  lemma PullRequired(entries: seq<(string, JValue)>, n: nat)
    requires n < |PullKind.fields| && PullKind.fields[n].wire !in Keys(entries)
    requires PullKind.fields[n].wire !in PullOptionalWires
    ensures Decode(PullKind, JObj(entries)).Err?
  {
    PullOptionalExactly();
    RequiredUnlessListed(PullKind, PullOptionalWires, entries, n);
  }

  /** A pull request without a body, merge time or merger reads them as `None`. */
  lemma PullOptional(entries: seq<(string, JValue)>)
    requires Decode(PullKind, JObj(entries)).Ok?
    ensures "body" !in Keys(entries) ==> Decode(PullKind, JObj(entries)).value.slots[14] == None
    ensures "merged_at" !in Keys(entries) ==> Decode(PullKind, JObj(entries)).value.slots[18] == None
    ensures "merged_by" !in Keys(entries) ==> Decode(PullKind, JObj(entries)).value.slots[26] == None
  {
    if "body" !in Keys(entries) { AbsentField(PullKind, entries, 14); }
    if "merged_at" !in Keys(entries) { AbsentField(PullKind, entries, 18); }
    if "merged_by" !in Keys(entries) { AbsentField(PullKind, entries, 26); }
  }

  /** `FileDiff`: sha is `None` when only the mode changed, patch for binary files. */
  const FileDiffKind := KRec([
    Opt("sha", KStr), Req("filename", KStr), Req("status", KStr), Req("additions", U64),
    Req("deletions", U64), Req("changes", U64), Req("blob_url", KStr), Req("raw_url", KStr),
    Req("contents_url", KStr), Opt("patch", KStr)])

  /** Only sha and patch of a file diff are optional. */
  lemma FileDiffOptionalExactly()
    ensures OptionalExactly(FileDiffKind, {"sha", "patch"})
  {
  }

  /** A file diff without sha or patch reads them as `None`; one without any other field does
      not decode. */
  lemma FileDiffFields(entries: seq<(string, JValue)>, n: nat)
    requires n < |FileDiffKind.fields| && FileDiffKind.fields[n].wire !in Keys(entries)
    ensures FileDiffKind.fields[n].wire !in {"sha", "patch"} ==> Decode(FileDiffKind, JObj(entries)).Err?
    ensures FileDiffKind.fields[n].wire in {"sha", "patch"} && Decode(FileDiffKind, JObj(entries)).Ok? ==>
      Decode(FileDiffKind, JObj(entries)).value.slots[n] == None
  {
    FileDiffOptionalExactly();
    AbsentField(FileDiffKind, entries, n);
  }
}
