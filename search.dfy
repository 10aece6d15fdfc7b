/** Issue search: the sort keys, the query options and their builder, the search URI, the
    envelope every search answers with, and the issues it lists. */
module Search {
  import opened Wrappers
  import opened Json
  import opened Schema
  import Text
  import UrlEncoding
  import QueryParams
  import Client
  import Users
  import Labels

  /** `IssuesSort`. */
  datatype IssuesSort = Created | Updated | Comments

  /** `Display for IssuesSort`. */
  function IssuesSortText(s: IssuesSort): string {
    match s
    case Comments => "comments"
    case Created => "created"
    case Updated => "updated"
  }

  /** The inverse of `IssuesSortText`: each name belongs to exactly one sort key. */
  function ParseIssuesSort(t: string): (r: Option<IssuesSort>)
    ensures forall s :: r == Some(s) <==> IssuesSortText(s) == t
  {
    match t
    case "comments" => Some(Comments)
    case "created" => Some(Created)
    case "updated" => Some(Updated)
    case _ => None
  }

  /** `search_uri`, shared by the issue and the repository searches: the endpoint, a '?', the
      serialized options (if any) and then the query as the last pair, `q=<encoded q>`. */
  function SearchUri(endpoint: string, q: string, options: QueryParams.Params): (uri: string)
    ensures QueryParams.Serialize(options).None? ==>
      uri == endpoint + "?" + UrlEncoding.FormPair("q", q)
    ensures QueryParams.Serialize(options).Some? ==>
      uri == endpoint + "?" + QueryParams.Serialize(options).value + "&" + UrlEncoding.FormPair("q", q)
  {
    var queryOptions := match QueryParams.Serialize(options) case Some(s) => s case None => "";
    Text.JoinTwo(endpoint, UrlEncoding.AppendPair(queryOptions, "q", q), "?");
    Text.Join([endpoint, UrlEncoding.AppendPair(queryOptions, "q", q)], "?")
  }

  /** The query is always the last pair, whatever the options. */
  lemma QueryLast(endpoint: string, q: string, options: QueryParams.Params)
    ensures var uri := SearchUri(endpoint, q, options);
      var pair := UrlEncoding.FormPair("q", q);
      |pair| <= |uri| && uri[|uri| - |pair|..] == pair
  {
    var uri := SearchUri(endpoint, q, options);
    var pair := UrlEncoding.FormPair("q", q);
    var s := QueryParams.Serialize(options);
    var prefix := if s.Some? then endpoint + "?" + s.value + "&" else endpoint + "?";
    assert uri == prefix + pair;
  }

  /** `SearchIssues::search_uri`. */
  function SearchIssuesUri(q: string, options: QueryParams.Params): string {
    SearchUri("/search/issues", q, options)
  }

  /** Searching without options sends the query alone. */
  lemma SearchIssuesNoOptions(q: string)
    ensures SearchIssuesUri(q, []) == "/search/issues?q=" + UrlEncoding.FormEncode(q)
  {
    assert QueryParams.Serialize([]).None?;
    var encoded := UrlEncoding.FormEncode(q);
    assert UrlEncoding.FormPair("q", q) == "q" + "=" + encoded by {
      UrlEncoding.FormEncodeSafe("q");
    }
    Text.Regroup("/search/issues", "?", "q", "=", encoded);
  }

  /** `SearchIssues::list`: one page of results. */
  function ListIssues(q: string, options: QueryParams.Params): (req: Client.Call)
    ensures req == Client.Call(Client.Get, SearchUri("/search/issues", q, options), Client.NoBody)
  {
    Client.GetCall(SearchIssuesUri(q, options))
  }

  /** `SearchIssues::iter`: the first request of the stream over every page. */
  function IterIssues(q: string, options: QueryParams.Params): (req: Client.Call)
    ensures req == Client.Call(Client.Get, SearchUri("/search/issues", q, options), Client.NoBody)
  {
    Client.GetCall(SearchIssuesUri(q, options))
  }

  /** A page and the stream send the same request. */
  lemma IssuesListIsIter(q: string, options: QueryParams.Params)
    ensures ListIssues(q, options) == IterIssues(q, options)
    ensures ListIssues(q, options).verb == Client.Get
  {
  }

  /** `SearchIssuesOptionsBuilder`: the options map, filled in by its setters. `build` copies
      the map; `SearchIssuesOptions` is that map. */
  class SearchIssuesOptionsBuilder {
    var params: QueryParams.Params

    predicate Valid()
      reads this
    {
      QueryParams.Valid(params)
    }

    /** `new`: no option set. */
    constructor ()
      ensures Valid() && params == []
    {
      params := [];
    }

    /** `sort`: stores the sort key's name under "sort", replacing an earlier one. */
    method Sort(sort: IssuesSort)
      requires Valid()
      modifies this
      ensures Valid() && params == QueryParams.Insert(old(params), "sort", IssuesSortText(sort))
      ensures QueryParams.Lookup(params, "sort") == Some(IssuesSortText(sort))
      ensures forall k :: k != "sort" ==> QueryParams.Lookup(params, k) == QueryParams.Lookup(old(params), k)
    {
      params := QueryParams.Insert(params, "sort", IssuesSortText(sort));
    }

    /** `order`: stores the direction's name under "order", replacing an earlier one. */
    method Order(direction: Client.SortDirection)
      requires Valid()
      modifies this
      ensures Valid() && params == QueryParams.Insert(old(params), "order", Client.SortDirectionText(direction))
      ensures QueryParams.Lookup(params, "order") == Some(Client.SortDirectionText(direction))
      ensures forall k :: k != "order" ==> QueryParams.Lookup(params, k) == QueryParams.Lookup(old(params), k)
    {
      params := QueryParams.Insert(params, "order", Client.SortDirectionText(direction));
    }

    /** `build`. */
    function Build(): (options: QueryParams.Params)
      reads this
      ensures options == params
    {
      params
    }
  }

  /** Options with only a sort key serialize to that one pair; no options serialize to
      nothing. */
  lemma SortOnlySerializes(sort: IssuesSort)
    ensures QueryParams.Serialize([]) == None
    ensures QueryParams.Serialize(QueryParams.Insert([], "sort", IssuesSortText(sort))) ==
      Some("sort=" + IssuesSortText(sort))
  {
    assert "sort=" + IssuesSortText(sort) == "sort" + "=" + IssuesSortText(sort);
    match sort
    case Created => QueryParams.SerializeSafeOne("sort", "created");
    case Updated => QueryParams.SerializeSafeOne("sort", "updated");
    case Comments => QueryParams.SerializeSafeOne("sort", "comments");
  }

  /** `SearchResult<D>`: the envelope of every search, whose items decode as `D`. */
  function SearchResultKind(item: Kind): (k: Kind)
    ensures k.KRec? && |k.fields| == 3 && k.fields[2] == Req("items", KList(item))
  {
    KRec([Req("total_count", U64), Req("incomplete_results", KBool), Req("items", KList(item))])
  }

  /** `items`: the page's items in order, without the counts. The stream over a search uses it
      to turn each page into its items. */
  function Items(result: Val): seq<Val> {
    if result.VRec? && |result.slots| == 3 && result.slots[2].Some? && result.slots[2].value.VList?
    then result.slots[2].value.items
    else []
  }

  /** The envelope stands or falls with its items: one item that does not decode makes the
      whole page fail, and a page that decodes lists its items in the order sent. */
  lemma SearchResultItems(item: Kind, entries: seq<(string, JValue)>, sent: seq<JValue>)
    requires Occurrences(entries, "items") == Once(JArr(sent))
    ensures DecodeItems(KList(item), sent).Err? ==> Decode(SearchResultKind(item), JObj(entries)).Err?
    ensures Decode(SearchResultKind(item), JObj(entries)).Ok? ==>
      DecodeItems(KList(item), sent).Ok? &&
      Items(Decode(SearchResultKind(item), JObj(entries)).value) == DecodeItems(KList(item), sent).value
  {
    var k := SearchResultKind(item);
    DecodeSlotCases(k.fields[2], entries);
    DecodeRecord(k, entries);
  }

  /** The total count is not compared with the items: a page claiming any number of results
      and holding none decodes. */
  lemma CountNotChecked(item: Kind, count: nat)
    requires count < 0x1_0000_0000_0000_0000
    ensures Decode(SearchResultKind(item),
      JObj([("total_count", JInt(count)), ("incomplete_results", JBool(false)), ("items", JArr([]))])).Ok?
  {
    var entries := [("total_count", JInt(count)), ("incomplete_results", JBool(false)), ("items", JArr([]))];
    var k := SearchResultKind(item);
    OccurrencesUnique(entries, 0);
    OccurrencesUnique(entries, 1);
    OccurrencesUnique(entries, 2);
    assert k.fields[2].kind == KList(item) && !k.fields[2].optional;
    assert Decode(KList(item), JArr([])) == Ok(VList([]));
    DecodeRecordOf(k, entries, [Some(VInt(count)), Some(VBool(false)), Some(VList([]))]);
  }

  const PullRequestInfoKind := KRec([
    Req("url", KStr), Req("html_url", KStr), Req("diff_url", KStr), Req("patch_url", KStr)])

  /** `IssuesItem`: an issue as a search lists it. */
  const IssuesItemKind := KRec([
    Req("url", KStr), Req("repository_url", KStr), Req("labels_url", KStr),
    Req("comments_url", KStr), Req("events_url", KStr), Req("html_url", KStr), Req("id", U64),
    Req("number", U64), Req("title", KStr), Req("user", Users.UserKind),
    Req("labels", KList(Labels.LabelKind)), Req("state", KStr), Req("locked", KBool),
    Opt("assignee", Users.UserKind), Req("assignees", KList(Users.UserKind)),
    Req("comments", U64), Req("created_at", KStr), Req("updated_at", KStr),
    Opt("closed_at", KStr), Opt("pull_request", PullRequestInfoKind), Opt("body", KStr)])

  /** Assignee, closing time, pull request and body may be missing, and read as `None`; the
      label and assignee lists may not. */
  lemma IssuesItemOptional(entries: seq<(string, JValue)>)
    ensures var r := Decode(IssuesItemKind, JObj(entries));
      && ("labels" !in Keys(entries) ==> r.Err?)
      && ("assignees" !in Keys(entries) ==> r.Err?)
      && ("assignee" !in Keys(entries) && r.Ok? ==> r.value.slots[13] == None)
      && ("closed_at" !in Keys(entries) && r.Ok? ==> r.value.slots[18] == None)
      && ("pull_request" !in Keys(entries) && r.Ok? ==> r.value.slots[19] == None)
      && ("body" !in Keys(entries) && r.Ok? ==> r.value.slots[20] == None)
  {
    var k := IssuesItemKind;
    if "labels" !in Keys(entries) { AbsentField(k, entries, 10); }
    if "assignees" !in Keys(entries) { AbsentField(k, entries, 14); }
    if "assignee" !in Keys(entries) { AbsentField(k, entries, 13); }
    if "closed_at" !in Keys(entries) { AbsentField(k, entries, 18); }
    if "pull_request" !in Keys(entries) { AbsentField(k, entries, 19); }
    if "body" !in Keys(entries) { AbsentField(k, entries, 20); }
  }

  /** `repo_tuple` as written: the path of `repository_url`, split at '/' and reversed, gives
      its last piece and then the one before it. The path is what `Url::parse` makes of the
      URL; parsing is not modelled. */
  function RepoTupleAsWritten(path: string): (t: (string, string))
    requires |path| > 0 && path[0] == '/'
    ensures var parts := Text.Split(path, '/');
      |parts| >= 2 && parts[|parts| - 2..] == [t.1, t.0]
  {
    var parts := Text.Split(path, '/');
    SplitsAtRoot(path);
    (parts[|parts| - 1], parts[|parts| - 2])
  }

  /** `repo_tuple` as its documentation describes it: the owner's name, then the repository's. */
  function RepoTuple(path: string): (t: (string, string))
    requires |path| > 0 && path[0] == '/'
    ensures var parts := Text.Split(path, '/');
      |parts| >= 2 && parts[|parts| - 2..] == [t.0, t.1]
  {
    var parts := Text.Split(path, '/');
    SplitsAtRoot(path);
    (parts[|parts| - 2], parts[|parts| - 1])
  }

  /** A path from the root has at least two pieces: the empty one before the first '/', and
      what follows. */
  lemma SplitsAtRoot(path: string)
    requires |path| > 0 && path[0] == '/'
    ensures |Text.Split(path, '/')| >= 2
  {
    assert path == "" + "/" + path[1..];
    Text.SplitAfter("", path[1..], '/');
  }

  /** The pieces of a repository's API path. */
  lemma RepositoryPathPieces(owner: string, repo: string)
    requires '/' !in owner && '/' !in repo
    ensures Text.Split("/repos/" + owner + "/" + repo, '/') == ["", "repos", owner, repo]
  {
    assert "/repos/" + owner + "/" + repo == "" + "/" + ("repos" + "/" + (owner + "/" + repo));
    Text.SplitAfter("", "repos" + "/" + (owner + "/" + repo), '/');
    Text.SplitAfter("repos", owner + "/" + repo, '/');
    Text.SplitAfter(owner, repo, '/');
    Text.SplitPlain(repo, '/');
  }

  /** As written, the tuple of "/repos/{owner}/{repo}" is (repo, owner): the order is the
      reverse of the documented one. */
  lemma RepoTupleSwapped(owner: string, repo: string)
    requires '/' !in owner && '/' !in repo
    ensures RepoTupleAsWritten("/repos/" + owner + "/" + repo) == (repo, owner)
  {
    RepositoryPathPieces(owner, repo);
  }

  /** The documented order: (owner, repo). */
  lemma RepoTupleOwnerRepo(owner: string, repo: string)
    requires '/' !in owner && '/' !in repo
    ensures RepoTuple("/repos/" + owner + "/" + repo) == (owner, repo)
  {
    RepositoryPathPieces(owner, repo);
  }
}
