/** Repository search: its sort keys, options and builder, its URI, and the repositories it
    lists. */
module SearchRepos {
  import opened Wrappers
  import opened Json
  import opened Schema
  import Text
  import UrlEncoding
  import QueryParams
  import Client
  import Users
  import Search

  /** `ReposSort`. */
  datatype ReposSort = Stars | Forks | Updated

  /** `Display for ReposSort`. */
  function ReposSortText(s: ReposSort): string {
    match s
    case Stars => "stars"
    case Forks => "forks"
    case Updated => "updated"
  }

  /** The inverse of `ReposSortText`: each name belongs to exactly one sort key. */
  function ParseReposSort(t: string): (r: Option<ReposSort>)
    ensures forall s :: r == Some(s) <==> ReposSortText(s) == t
  {
    match t
    case "stars" => Some(Stars)
    case "forks" => Some(Forks)
    case "updated" => Some(Updated)
    case _ => None
  }

  /** `SearchRepos::search_uri`. */
  function SearchReposUri(q: string, options: QueryParams.Params): string {
    Search.SearchUri("/search/repositories", q, options)
  }

  /** The repository search URI: without options it is the endpoint and the query alone;
      with any options the query is still the last pair. */
  lemma SearchReposUriShape(q: string, options: QueryParams.Params)
    ensures SearchReposUri(q, []) == "/search/repositories?q=" + UrlEncoding.FormEncode(q)
    ensures var uri, pair := SearchReposUri(q, options), UrlEncoding.FormPair("q", q);
      |pair| <= |uri| && uri[|uri| - |pair|..] == pair
  {
    UrlEncoding.FormEncodeSafe("q");
    Search.QueryLast("/search/repositories", q, options);
  }

  /** `list` and `iter`: a page, and the first request of the stream over every page. */
  function List(q: string, options: QueryParams.Params): (req: Client.Call)
    ensures req == Client.Call(Client.Get, Search.SearchUri("/search/repositories", q, options), Client.NoBody)
  {
    Client.GetCall(SearchReposUri(q, options))
  }

  function Iter(q: string, options: QueryParams.Params): (req: Client.Call)
    ensures req == Client.Call(Client.Get, Search.SearchUri("/search/repositories", q, options), Client.NoBody)
  {
    Client.GetCall(SearchReposUri(q, options))
  }

  /** `SearchReposOptionsBuilder`: the options map, filled in by its setters. `build` copies
      the map; `SearchReposOptions` is that map. */
  class SearchReposOptionsBuilder {
    var params: QueryParams.Params

    predicate Valid()
      reads this
    {
      QueryParams.Valid(params)
    }

    constructor ()
      ensures Valid() && params == []
    {
      params := [];
    }

    /** `per_page`: the page size in decimal under "per_page". */
    method PerPage(n: nat)
      requires Valid()
      modifies this
      ensures Valid() && params == QueryParams.Insert(old(params), "per_page", Text.NatToString(n))
      ensures QueryParams.Lookup(params, "per_page") == Some(Text.NatToString(n))
      ensures forall k :: k != "per_page" ==> QueryParams.Lookup(params, k) == QueryParams.Lookup(old(params), k)
    {
      params := QueryParams.Insert(params, "per_page", Text.NatToString(n));
    }

    /** `sort`: the sort key's name under "sort". */
    method Sort(sort: ReposSort)
      requires Valid()
      modifies this
      ensures Valid() && params == QueryParams.Insert(old(params), "sort", ReposSortText(sort))
      ensures QueryParams.Lookup(params, "sort") == Some(ReposSortText(sort))
      ensures forall k :: k != "sort" ==> QueryParams.Lookup(params, k) == QueryParams.Lookup(old(params), k)
    {
      params := QueryParams.Insert(params, "sort", ReposSortText(sort));
    }

    /** `order`: the direction's name under "order". */
    method Order(direction: Client.SortDirection)
      requires Valid()
      modifies this
      ensures Valid() && params == QueryParams.Insert(old(params), "order", Client.SortDirectionText(direction))
      ensures QueryParams.Lookup(params, "order") == Some(Client.SortDirectionText(direction))
      ensures forall k :: k != "order" ==> QueryParams.Lookup(params, k) == QueryParams.Lookup(old(params), k)
    {
      params := QueryParams.Insert(params, "order", Client.SortDirectionText(direction));
    }

    function Build(): (options: QueryParams.Params)
      reads this
      ensures options == params
    {
      params
    }
  }

  /** A page size set twice keeps the later one. */
  lemma PerPageTwice(p: QueryParams.Params, first: nat, second: nat)
    requires QueryParams.Valid(p)
    ensures QueryParams.Insert(QueryParams.Insert(p, "per_page", Text.NatToString(first)), "per_page", Text.NatToString(second)) ==
      QueryParams.Insert(p, "per_page", Text.NatToString(second))
  {
    QueryParams.InsertTwice(p, "per_page", Text.NatToString(first), Text.NatToString(second));
  }

  /** `License`: all four fields required. */
  const LicenseKind := KRec([Req("key", KStr), Req("name", KStr), Req("spdx_id", KStr), Req("url", KStr)])

  // `ReposItem`, in chunks of ten fields. The score is an `f64`; only integral scores are modelled.
  /** Fields 0 to 9. */
  const ReposItemFields0 := [
    Req("id", U32), Req("name", KStr), Req("full_name", KStr), Req("owner", Users.UserKind),
    Req("private", KBool), Req("html_url", KStr), Req("description", KStr), Req("fork", KBool),
    Req("url", KStr), Req("forks_url", KStr)]

  /** Fields 10 to 19. */
  const ReposItemFields1 := [
    Req("keys_url", KStr), Req("collaborators_url", KStr), Req("teams_url", KStr),
    Req("hooks_url", KStr), Req("issue_events_url", KStr), Req("events_url", KStr),
    Req("assignees_url", KStr), Req("branches_url", KStr), Req("tags_url", KStr),
    Req("blobs_url", KStr)]

  /** Fields 20 to 29. */
  const ReposItemFields2 := [
    Req("git_tags_url", KStr), Req("git_refs_url", KStr), Req("trees_url", KStr),
    Req("statuses_url", KStr), Req("languages_url", KStr), Req("stargazers_url", KStr),
    Req("contributors_url", KStr), Req("subscribers_url", KStr), Req("subscription_url", KStr),
    Req("commits_url", KStr)]

  /** Fields 30 to 39. */
  const ReposItemFields3 := [
    Req("git_commits_url", KStr), Req("comments_url", KStr), Req("issue_comment_url", KStr),
    Req("contents_url", KStr), Req("compare_url", KStr), Req("merges_url", KStr),
    Req("archive_url", KStr), Req("downloads_url", KStr), Req("issues_url", KStr),
    Req("pulls_url", KStr)]

  /** Fields 40 to 49. */
  const ReposItemFields4 := [
    Req("milestones_url", KStr), Req("notifications_url", KStr), Req("labels_url", KStr),
    Req("releases_url", KStr), Req("deployments_url", KStr), Req("created_at", KStr),
    Req("updated_at", KStr), Req("pushed_at", KStr), Req("git_url", KStr), Req("ssh_url", KStr)]

  /** Fields 50 to 59. */
  const ReposItemFields5 := [
    Req("clone_url", KStr), Req("svn_url", KStr), Req("homepage", KStr), Req("size", U32),
    Req("stargazers_count", U32), Req("watchers_count", U32), Req("language", KStr),
    Req("has_issues", KBool), Req("has_projects", KBool), Req("has_downloads", KBool)]

  /** Fields 60 to 69. */
  const ReposItemFields6 := [
    Req("has_wiki", KBool), Req("has_pages", KBool), Req("forks_count", U32),
    Opt("mirror_url", KStr), Req("archived", KBool), Req("open_issues_count", U32),
    Req("license", LicenseKind), Req("forks", U32), Req("open_issues", U32), Req("watchers", U32)]

  /** Fields 70 to 71. */
  const ReposItemFields7 := [
    Req("default_branch", KStr), Req("score", KFloat)]

  const ReposItemKind := KRec(ReposItemFields0 + ReposItemFields1 + ReposItemFields2 +
    ReposItemFields3 + ReposItemFields4 + ReposItemFields5 + ReposItemFields6 + ReposItemFields7)


  /** The mirror URL may be missing, and reads as `None`. */
  lemma MirrorUrlOptional(entries: seq<(string, JValue)>)
    requires "mirror_url" !in Keys(entries)
    ensures Decode(ReposItemKind, JObj(entries)).Ok? ==> Decode(ReposItemKind, JObj(entries)).value.slots[63] == None
  {
    AbsentField(ReposItemKind, entries, 63);
  }

  /** Description, homepage, language and license are required: without any of them a
      repository does not decode. */
  lemma ReposItemRequired(entries: seq<(string, JValue)>)
    ensures "description" !in Keys(entries) ==> Decode(ReposItemKind, JObj(entries)).Err?
    ensures "homepage" !in Keys(entries) ==> Decode(ReposItemKind, JObj(entries)).Err?
    ensures "language" !in Keys(entries) ==> Decode(ReposItemKind, JObj(entries)).Err?
    ensures "license" !in Keys(entries) ==> Decode(ReposItemKind, JObj(entries)).Err?
  {
    if "description" !in Keys(entries) { AbsentField(ReposItemKind, entries, 6); }
    if "homepage" !in Keys(entries) { AbsentField(ReposItemKind, entries, 52); }
    if "language" !in Keys(entries) { AbsentField(ReposItemKind, entries, 56); }
    if "license" !in Keys(entries) { AbsentField(ReposItemKind, entries, 66); }
  }

  /** Nor may any of them be `null`. */
  lemma ReposItemNotNull(entries: seq<(string, JValue)>)
    ensures Occurrences(entries, "description") == Once(JNull) ==> Decode(ReposItemKind, JObj(entries)).Err?
    ensures Occurrences(entries, "homepage") == Once(JNull) ==> Decode(ReposItemKind, JObj(entries)).Err?
    ensures Occurrences(entries, "language") == Once(JNull) ==> Decode(ReposItemKind, JObj(entries)).Err?
    ensures Occurrences(entries, "license") == Once(JNull) ==> Decode(ReposItemKind, JObj(entries)).Err?
  {
    if Occurrences(entries, "description") == Once(JNull) { NullField(ReposItemKind, entries, 6); }
    if Occurrences(entries, "homepage") == Once(JNull) { NullField(ReposItemKind, entries, 52); }
    if Occurrences(entries, "language") == Once(JNull) { NullField(ReposItemKind, entries, 56); }
    if Occurrences(entries, "license") == Once(JNull) { NullField(ReposItemKind, entries, 66); }
  }

  /** A license missing any of its fields does not decode. */
  lemma LicenseRequiresAll(entries: seq<(string, JValue)>, n: nat)
    requires n < 4 && LicenseKind.fields[n].wire !in Keys(entries)
    ensures Decode(LicenseKind, JObj(entries)).Err?
  {
    AbsentField(LicenseKind, entries, n);
  }
}
