/** Repositories: the listings of a user's, another user's and an organization's repositories
    with their options, the bodies that create and edit a repository, and the repository
    record. */
module Repositories {
  import opened Wrappers
  import opened Json
  import opened Schema
  import Text
  import UrlEncoding
  import QueryParams
  import Client
  import Users

  /** `Visibility`: which repositories by visibility. */
  datatype Visibility = All | Public | Private

  function VisibilityText(x: Visibility): string {
    match x
    case All => "all"
    case Public => "public"
    case Private => "private"
  }

  /** The inverse of `VisibilityText`: each name belongs to exactly one variant. */
  function ParseVisibility(t: string): (r: Option<Visibility>)
    ensures forall x :: r == Some(x) <==> VisibilityText(x) == t
  {
    match t
    case "all" => Some(Visibility.All)
    case "public" => Some(Visibility.Public)
    case "private" => Some(Visibility.Private)
    case _ => None
  }

  /** `Sort`: the order of a repository listing. */
  datatype Sort = Created | Updated | Pushed | FullName

  function SortText(x: Sort): string {
    match x
    case Created => "created"
    case Updated => "updated"
    case Pushed => "pushed"
    case FullName => "full_name"
  }

  /** The inverse of `SortText`: each name belongs to exactly one variant. */
  function ParseSort(t: string): (r: Option<Sort>)
    ensures forall x :: r == Some(x) <==> SortText(x) == t
  {
    match t
    case "created" => Some(Sort.Created)
    case "updated" => Some(Sort.Updated)
    case "pushed" => Some(Sort.Pushed)
    case "full_name" => Some(Sort.FullName)
    case _ => None
  }

  /** `Affiliation`: how the user is related to a repository. */
  datatype Affiliation = Owner | Collaborator | OrganizationMember

  function AffiliationText(x: Affiliation): string {
    match x
    case Owner => "owner"
    case Collaborator => "collaborator"
    case OrganizationMember => "organization_member"
  }

  /** The inverse of `AffiliationText`: each name belongs to exactly one variant. */
  function ParseAffiliation(t: string): (r: Option<Affiliation>)
    ensures forall x :: r == Some(x) <==> AffiliationText(x) == t
  {
    match t
    case "owner" => Some(Affiliation.Owner)
    case "collaborator" => Some(Affiliation.Collaborator)
    case "organization_member" => Some(Affiliation.OrganizationMember)
    case _ => None
  }

  /** `Type`: which of the user's repositories. */
  datatype RepoType = All | Owner | Public | Private | Member

  function RepoTypeText(x: RepoType): string {
    match x
    case All => "all"
    case Owner => "owner"
    case Public => "public"
    case Private => "private"
    case Member => "member"
  }

  /** The inverse of `RepoTypeText`: each name belongs to exactly one variant. */
  function ParseRepoType(t: string): (r: Option<RepoType>)
    ensures forall x :: r == Some(x) <==> RepoTypeText(x) == t
  {
    match t
    case "all" => Some(RepoType.All)
    case "owner" => Some(RepoType.Owner)
    case "public" => Some(RepoType.Public)
    case "private" => Some(RepoType.Private)
    case "member" => Some(RepoType.Member)
    case _ => None
  }

  /** `OrgRepoType`: which of an organization's repositories. */
  datatype OrgRepoType = All | Public | Private | Forks | Sources | Member

  function OrgRepoTypeText(x: OrgRepoType): string {
    match x
    case All => "all"
    case Public => "public"
    case Private => "private"
    case Forks => "forks"
    case Sources => "sources"
    case Member => "member"
  }

  /** The inverse of `OrgRepoTypeText`: each name belongs to exactly one variant. */
  function ParseOrgRepoType(t: string): (r: Option<OrgRepoType>)
    ensures forall x :: r == Some(x) <==> OrgRepoTypeText(x) == t
  {
    match t
    case "all" => Some(OrgRepoType.All)
    case "public" => Some(OrgRepoType.Public)
    case "private" => Some(OrgRepoType.Private)
    case "forks" => Some(OrgRepoType.Forks)
    case "sources" => Some(OrgRepoType.Sources)
    case "member" => Some(OrgRepoType.Member)
    case _ => None
  }

  /** The displayed names of affiliations, in the order given. */
  function AffiliationNames(affiliations: seq<Affiliation>): (names: seq<string>)
    ensures |names| == |affiliations|
    ensures forall n :: 0 <= n < |names| ==> names[n] == AffiliationText(affiliations[n])
  {
    seq(|affiliations|, n requires 0 <= n < |affiliations| => AffiliationText(affiliations[n]))
  }

  /** The value `affiliation` stores: the names joined by ",". */
  function AffiliationsText(affiliations: seq<Affiliation>): string {
    Text.Join(AffiliationNames(affiliations), ",")
  }

  /** Reading a stored affiliation value back: split at each ',' and read every piece. */
  function ParseAffiliations(t: string): Option<seq<Affiliation>> {
    if t == "" then Some([]) else ParseAffiliationList(Text.Split(t, ','))
  }

  function ParseAffiliationList(names: seq<string>): Option<seq<Affiliation>> {
    if |names| == 0 then Some([])
    else match (ParseAffiliation(names[0]), ParseAffiliationList(names[1..]))
      case (Some(a), Some(rest)) => Some([a] + rest)
      case _ => None
  }

  lemma {:induction false} ParseAffiliationNames(affiliations: seq<Affiliation>)
    ensures ParseAffiliationList(AffiliationNames(affiliations)) == Some(affiliations)
    decreases |affiliations|
  {
    if |affiliations| > 0 {
      assert AffiliationNames(affiliations)[1..] == AffiliationNames(affiliations[1..]);
      ParseAffiliationNames(affiliations[1..]);
      assert [affiliations[0]] + affiliations[1..] == affiliations;
    }
  }

  /** The stored value keeps every affiliation, in order: reading it back gives the list. */
  lemma AffiliationsRoundTrip(affiliations: seq<Affiliation>)
    ensures ParseAffiliations(AffiliationsText(affiliations)) == Some(affiliations)
  {
    var names := AffiliationNames(affiliations);
    if |affiliations| > 0 {
      forall n | 0 <= n < |names| ensures ',' !in names[n] {
        match affiliations[n]
        case Owner =>
        case Collaborator =>
        case OrganizationMember =>
      }
      Text.SplitJoin(names, ',');
      ParseAffiliationNames(affiliations);
    }
  }

  /** Owner and collaborator are stored as "owner,collaborator". */
  lemma AffiliationExample()
    ensures AffiliationsText([Affiliation.Owner, Collaborator]) == "owner,collaborator"
  {
    var names := AffiliationNames([Affiliation.Owner, Collaborator]);
    assert names == ["owner", "collaborator"];
    Text.JoinTwo("owner", "collaborator", ",");
  }

  /** Every affiliation name is made of characters the form encoding leaves alone. */
  lemma AffiliationNamesSafe(affiliations: seq<Affiliation>)
    ensures forall n, i :: 0 <= n < |affiliations| && 0 <= i < |AffiliationNames(affiliations)[n]| ==>
      UrlEncoding.FormSafeChar(AffiliationNames(affiliations)[n][i])
  {
    forall n, i | 0 <= n < |affiliations| && 0 <= i < |AffiliationNames(affiliations)[n]|
      ensures UrlEncoding.FormSafeChar(AffiliationNames(affiliations)[n][i])
    {
      match affiliations[n]
      case Owner =>
      case Collaborator =>
      case OrganizationMember =>
    }
  }

  /** Sent alone, the stored affiliations appear as `affiliation=` and their names joined by an
      encoded comma, `%2C`: "owner,collaborator" is sent as "affiliation=owner%2Ccollaborator". */
  lemma AffiliationsQuery(affiliations: seq<Affiliation>)
    ensures QueryParams.Serialize(QueryParams.Insert([], "affiliation", AffiliationsText(affiliations))) ==
      Some("affiliation" + "=" + Text.Join(AffiliationNames(affiliations), "%2C"))
  {
    var key, names := "affiliation", AffiliationNames(affiliations);
    var text := Text.Join(names, ",");
    assert UrlEncoding.FormEncode(text) == Text.Join(names, "%2C") by {
      AffiliationNamesSafe(affiliations);
      QueryParams.FormEncodeCommaList(names);
    }
    assert UrlEncoding.FormEncode(key) == key by {
      UrlEncoding.FormEncodeSafe(key);
    }
    QueryParams.SerializeOne(key, text);
  }

  /** `RepoListOptionsBuilder`: the options of the authenticated user's repository listing. */
  class RepoListOptionsBuilder {
    var params: QueryParams.Params

    predicate Valid()
      reads this
    {
      QueryParams.Valid(params)
    }

    /** `default`: no option set. */
    constructor ()
      ensures Valid() && params == []
    {
      params := [];
    }

    /** `per_page`: the page size in decimal under "per_page". */
    method PerPage(n: nat)
      requires Valid()
      modifies this
      ensures Valid() && params == QueryParams.Insert(old(params), "per_page", Text.NatToString(n))
    {
      params := QueryParams.Insert(params, "per_page", Text.NatToString(n));
    }

    /** `visibility`: its name under "visibility". */
    method SetVisibility(vis: Visibility)
      requires Valid()
      modifies this
      ensures Valid() && params == QueryParams.Insert(old(params), "visibility", VisibilityText(vis))
    {
      params := QueryParams.Insert(params, "visibility", VisibilityText(vis));
    }

    /** `affiliation`: the names joined by "," under "affiliation". */
    method SetAffiliation(affiliations: seq<Affiliation>)
      requires Valid()
      modifies this
      ensures Valid() && params == QueryParams.Insert(old(params), "affiliation", AffiliationsText(affiliations))
    {
      params := QueryParams.Insert(params, "affiliation", AffiliationsText(affiliations));
    }

    /** `repo_type`: its name under "type". */
    method SetRepoType(tpe: RepoType)
      requires Valid()
      modifies this
      ensures Valid() && params == QueryParams.Insert(old(params), "type", RepoTypeText(tpe))
    {
      params := QueryParams.Insert(params, "type", RepoTypeText(tpe));
    }

    /** `sort`: its name under "sort". */
    method SetSort(sort: Sort)
      requires Valid()
      modifies this
      ensures Valid() && params == QueryParams.Insert(old(params), "sort", SortText(sort))
    {
      params := QueryParams.Insert(params, "sort", SortText(sort));
    }

    /** `asc`: `direction(Asc)`. */
    method Asc()
      requires Valid()
      modifies this
      ensures Valid() && params == QueryParams.Insert(old(params), "direction", "asc")
    {
      Direction(Client.Asc);
    }

    /** `desc`: `direction(Desc)`. */
    method Desc()
      requires Valid()
      modifies this
      ensures Valid() && params == QueryParams.Insert(old(params), "direction", "desc")
    {
      Direction(Client.Desc);
    }

    /** `direction`: the direction's name under "direction". */
    method Direction(direction: Client.SortDirection)
      requires Valid()
      modifies this
      ensures Valid() && params == QueryParams.Insert(old(params), "direction", Client.SortDirectionText(direction))
    {
      params := QueryParams.Insert(params, "direction", Client.SortDirectionText(direction));
    }

    /** `build`: the options hold a copy of the map. */
    function Build(): (options: QueryParams.Params)
      reads this
      ensures options == params
    {
      params
    }
  }

  /** `OrgRepoListOptionsBuilder`: the options of an organization's repository listing. */
  class OrgRepoListOptionsBuilder {
    var params: QueryParams.Params

    predicate Valid()
      reads this
    {
      QueryParams.Valid(params)
    }

    /** `default`: no option set. */
    constructor ()
      ensures Valid() && params == []
    {
      params := [];
    }

    /** `per_page`: the page size in decimal under "per_page". */
    method PerPage(n: nat)
      requires Valid()
      modifies this
      ensures Valid() && params == QueryParams.Insert(old(params), "per_page", Text.NatToString(n))
    {
      params := QueryParams.Insert(params, "per_page", Text.NatToString(n));
    }

    /** `repo_type`: its name under "type". */
    method SetRepoType(tpe: OrgRepoType)
      requires Valid()
      modifies this
      ensures Valid() && params == QueryParams.Insert(old(params), "type", OrgRepoTypeText(tpe))
    {
      params := QueryParams.Insert(params, "type", OrgRepoTypeText(tpe));
    }

    /** `build`: the options hold a copy of the map. */
    function Build(): (options: QueryParams.Params)
      reads this
      ensures options == params
    {
      params
    }
  }

  /** `UserRepoListOptionsBuilder`: the options of another user's repository listing. */
  class UserRepoListOptionsBuilder {
    var params: QueryParams.Params

    predicate Valid()
      reads this
    {
      QueryParams.Valid(params)
    }

    /** `default`: no option set. */
    constructor ()
      ensures Valid() && params == []
    {
      params := [];
    }

    /** `repo_type`: its name under "type". */
    method SetRepoType(tpe: RepoType)
      requires Valid()
      modifies this
      ensures Valid() && params == QueryParams.Insert(old(params), "type", RepoTypeText(tpe))
    {
      params := QueryParams.Insert(params, "type", RepoTypeText(tpe));
    }

    /** `per_page`: the page size in decimal under "per_page". */
    method PerPage(n: nat)
      requires Valid()
      modifies this
      ensures Valid() && params == QueryParams.Insert(old(params), "per_page", Text.NatToString(n))
    {
      params := QueryParams.Insert(params, "per_page", Text.NatToString(n));
    }

    /** `sort`: its name under "sort". */
    method SetSort(sort: Sort)
      requires Valid()
      modifies this
      ensures Valid() && params == QueryParams.Insert(old(params), "sort", SortText(sort))
    {
      params := QueryParams.Insert(params, "sort", SortText(sort));
    }

    /** `asc`: `direction(Asc)`. */
    method Asc()
      requires Valid()
      modifies this
      ensures Valid() && params == QueryParams.Insert(old(params), "direction", "asc")
    {
      Direction(Client.Asc);
    }

    /** `desc`: `direction(Desc)`. */
    method Desc()
      requires Valid()
      modifies this
      ensures Valid() && params == QueryParams.Insert(old(params), "direction", "desc")
    {
      Direction(Client.Desc);
    }

    /** `direction`: the direction's name under "direction". */
    method Direction(direction: Client.SortDirection)
      requires Valid()
      modifies this
      ensures Valid() && params == QueryParams.Insert(old(params), "direction", Client.SortDirectionText(direction))
    {
      params := QueryParams.Insert(params, "direction", Client.SortDirectionText(direction));
    }

    /** `build`: the options hold a copy of the map. */
    function Build(): (options: QueryParams.Params)
      reads this
      ensures options == params
    {
      params
    }
  }

  /** `OrganizationRepoListOptionsBuilder`: the options of the `OrganizationRepositories` listing. */
  class OrganizationRepoListOptionsBuilder {
    var params: QueryParams.Params

    predicate Valid()
      reads this
    {
      QueryParams.Valid(params)
    }

    /** `default`: no option set. */
    constructor ()
      ensures Valid() && params == []
    {
      params := [];
    }

    /** `per_page`: the page size in decimal under "per_page". */
    method PerPage(n: nat)
      requires Valid()
      modifies this
      ensures Valid() && params == QueryParams.Insert(old(params), "per_page", Text.NatToString(n))
    {
      params := QueryParams.Insert(params, "per_page", Text.NatToString(n));
    }

    /** `repo_type`: its name under "type". */
    method SetRepoType(tpe: OrgRepoType)
      requires Valid()
      modifies this
      ensures Valid() && params == QueryParams.Insert(old(params), "type", OrgRepoTypeText(tpe))
    {
      params := QueryParams.Insert(params, "type", OrgRepoTypeText(tpe));
    }

    /** `build`: the options hold a copy of the map. */
    function Build(): (options: QueryParams.Params)
      reads this
      ensures options == params
    {
      params
    }
  }

  /** Choosing a sort order twice keeps only the later choice; the other keys are untouched. */
  lemma DirectionTwice(p: QueryParams.Params, first: Client.SortDirection, second: Client.SortDirection)
    requires QueryParams.Valid(p)
    ensures QueryParams.Insert(QueryParams.Insert(p, "direction", Client.SortDirectionText(first)),
      "direction", Client.SortDirectionText(second)) == QueryParams.Insert(p, "direction", Client.SortDirectionText(second))
  {
    QueryParams.InsertTwice(p, "direction", Client.SortDirectionText(first), Client.SortDirectionText(second));
  }

  /** `Repositories::path`: the authenticated user's repositories. */
  const UserReposPath := "/user/repos"

  /** `OrgRepositories::path` and `OrganizationRepositories::path`. */
  function OrgReposPath(org: string): string {
    "/orgs/" + org + "/repos"
  }

  /** `Repositories::list`, `iter`: the path, and the options after a '?' when any is set. */
  function ListMine(options: QueryParams.Params): (req: Client.Call)
    ensures req.verb == Client.Get && req.body == Client.NoBody
    ensures QueryParams.Serialize(options).None? ==> req.uri == "/user/repos"
    ensures QueryParams.Serialize(options).Some? ==> req.uri == "/user/repos" + "?" + QueryParams.Serialize(options).value
  {
    Client.GetCall(QueryParams.WithQuery(UserReposPath, options))
  }

  /** `Repositories::create`. */
  function CreateMine(o: RepoOptions): (req: Client.Call)
    ensures req == Client.Call(Client.Post, "/user/repos", Client.JsonBody(RepoOptionsJson(o)))
  {
    Client.PostCall(UserReposPath, RepoOptionsJson(o))
  }

  /** `OrgRepositories::list`, `iter` and `OrganizationRepositories::list`, `iter`. */
  function ListOrg(org: string, options: QueryParams.Params): (req: Client.Call)
    ensures req.verb == Client.Get && req.body == Client.NoBody
    ensures QueryParams.Serialize(options).None? ==> req.uri == "/orgs/" + org + "/repos"
    ensures QueryParams.Serialize(options).Some? ==> req.uri == "/orgs/" + org + "/repos" + "?" + QueryParams.Serialize(options).value
  {
    Client.GetCall(QueryParams.WithQuery(OrgReposPath(org), options))
  }

  /** `OrgRepositories::create`. */
  function CreateInOrg(org: string, o: RepoOptions): (req: Client.Call)
    ensures req == Client.Call(Client.Post, "/orgs/" + org + "/repos", Client.JsonBody(RepoOptionsJson(o)))
  {
    Client.PostCall(OrgReposPath(org), RepoOptionsJson(o))
  }

  /** `UserRepositories::uri`: "/users/{owner}/repos", then '?' and the query only when the
      options serialize to something. */
  function UserReposUri(owner: string, options: QueryParams.Params): (uri: string)
    ensures QueryParams.Serialize(options).None? ==> uri == "/users/" + owner + "/repos"
    ensures QueryParams.Serialize(options).Some? ==>
      uri == "/users/" + owner + "/repos" + "?" + QueryParams.Serialize(options).value
  {
    var uri := "/users/" + owner + "/repos";
    match QueryParams.Serialize(options)
    case Some(query) => uri + "?" + query
    case None => uri
  }

  /** Building the URI by appending agrees with joining the path and the query by "?", as the
      other listings do. */
  lemma UserReposUriJoins(owner: string, options: QueryParams.Params)
    ensures UserReposUri(owner, options) == QueryParams.WithQuery("/users/" + owner + "/repos", options)
    ensures options == [] ==> UserReposUri(owner, options) == "/users/" + owner + "/repos"
  {
  }

  /** The listings send their options only when there are some, and creating posts to the
      listing's own path. */
  lemma ListingCalls(org: string, o: RepoOptions, options: QueryParams.Params)
    ensures ListMine([]).uri == "/user/repos" && ListOrg(org, []).uri == "/orgs/" + org + "/repos"
    ensures options != [] ==>
      ListMine(options).uri == "/user/repos?" + QueryParams.Serialize(options).value
    ensures CreateMine(o).uri == ListMine([]).uri && CreateInOrg(org, o).uri == ListOrg(org, []).uri
    ensures CreateMine(o).verb == Client.Post && ListMine(options).verb == Client.Get
  {
  }

  /** `Repository`: one repository. */
  datatype Repository = Repository(owner: string, repo: string)

  function RepositoryPath(r: Repository): string {
    "/repos/" + r.owner + "/" + r.repo
  }

  function Get(r: Repository): (req: Client.Call)
    ensures req == Client.Call(Client.Get, "/repos/" + r.owner + "/" + r.repo, Client.NoBody)
  {
    Client.GetCall(RepositoryPath(r))
  }

  /** `edit` uses POST rather than the documented PATCH. */
  function Edit(r: Repository, o: RepoEditOptions): (req: Client.Call)
    ensures req == Client.Call(Client.Post, "/repos/" + r.owner + "/" + r.repo, Client.JsonBody(RepoEditOptionsJson(o)))
  {
    Client.PostCall(RepositoryPath(r), RepoEditOptionsJson(o))
  }

  function Delete(r: Repository): (req: Client.Call)
    ensures req == Client.Call(Client.Delete, "/repos/" + r.owner + "/" + r.repo, Client.NoBody)
  {
    Client.DeleteCall(RepositoryPath(r))
  }

  /** Reading, editing and deleting address the repository's own URI; an edit is a POST. */
  lemma RepositoryCalls(r: Repository, o: RepoEditOptions)
    ensures Get(r).uri == Edit(r, o).uri == Delete(r).uri == "/repos/" + r.owner + "/" + r.repo
    ensures Edit(r, o) == Client.Call(Client.Post, Get(r).uri, Client.JsonBody(RepoEditOptionsJson(o)))
    ensures Get(r).verb == Client.Get && Delete(r).verb == Client.Delete
  {
  }

  // `Repo`, in chunks of ten fields.
  /** Fields 0 to 9. */
  const RepoFields0 := [
    Req("id", U64), Req("owner", Users.UserKind), Req("name", KStr), Req("full_name", KStr),
    Opt("description", KStr), Req("private", KBool), Req("fork", KBool), Req("url", KStr),
    Req("html_url", KStr), Req("archive_url", KStr)]

  /** Fields 10 to 19. */
  const RepoFields1 := [
    Req("assignees_url", KStr), Req("blobs_url", KStr), Req("branches_url", KStr),
    Req("clone_url", KStr), Req("collaborators_url", KStr), Req("comments_url", KStr),
    Req("commits_url", KStr), Req("compare_url", KStr), Req("contents_url", KStr),
    Req("contributors_url", KStr)]

  /** Fields 20 to 29. */
  const RepoFields2 := [
    Req("deployments_url", KStr), Req("downloads_url", KStr), Req("events_url", KStr),
    Req("forks_url", KStr), Req("git_commits_url", KStr), Req("git_refs_url", KStr),
    Req("git_tags_url", KStr), Req("git_url", KStr), Req("hooks_url", KStr),
    Req("issue_comment_url", KStr)]

  /** Fields 30 to 39. */
  const RepoFields3 := [
    Req("issue_events_url", KStr), Req("issues_url", KStr), Req("keys_url", KStr),
    Req("labels_url", KStr), Req("languages_url", KStr), Req("merges_url", KStr),
    Req("milestones_url", KStr), Opt("mirror_url", KStr), Req("notifications_url", KStr),
    Req("pulls_url", KStr)]

  /** Fields 40 to 49. */
  const RepoFields4 := [
    Req("releases_url", KStr), Req("ssh_url", KStr), Req("stargazers_url", KStr),
    Req("statuses_url", KStr), Req("subscribers_url", KStr), Req("subscription_url", KStr),
    Req("svn_url", KStr), Req("tags_url", KStr), Req("teams_url", KStr), Req("trees_url", KStr)]

  /** Fields 50 to 59. */
  const RepoFields5 := [
    Opt("homepage", KStr), Opt("language", KStr), Req("forks_count", U64),
    Req("stargazers_count", U64), Req("watchers_count", U64), Req("size", U64),
    Req("default_branch", KStr), Req("open_issues_count", U64), Req("has_issues", KBool),
    Req("has_wiki", KBool)]

  /** Fields 60 to 64. */
  const RepoFields6 := [
    Req("has_pages", KBool), Req("has_downloads", KBool), Req("pushed_at", KStr),
    Req("created_at", KStr), Req("updated_at", KStr)]

  const RepoKind := KRec(RepoFields0 + RepoFields1 + RepoFields2 + RepoFields3 + RepoFields4 +
    RepoFields5 + RepoFields6)

  /** The `Option` fields of `Repo`. */
  const RepoOptionalWires := {"description", "mirror_url", "homepage", "language"}

  lemma RepoFieldsOptionalLow()
    ensures OptionalAmong(RepoFields0 + RepoFields1 + RepoFields2, RepoOptionalWires)
  {
    var w := RepoOptionalWires;
    assert OptionalAmong(RepoFields0, w);
    assert OptionalAmong(RepoFields1, w);
    assert OptionalAmong(RepoFields2, w);
    OptionalConcat(RepoFields0, RepoFields1, w);
    OptionalConcat(RepoFields0 + RepoFields1, RepoFields2, w);
  }

  lemma RepoFieldsOptionalHigh()
    ensures OptionalAmong(RepoFields3 + RepoFields4, RepoOptionalWires)
    ensures OptionalAmong(RepoFields5 + RepoFields6, RepoOptionalWires)
  {
    var w := RepoOptionalWires;
    assert OptionalAmong(RepoFields3, w);
    assert OptionalAmong(RepoFields4, w);
    assert OptionalAmong(RepoFields5, w);
    assert OptionalAmong(RepoFields6, w);
    OptionalConcat(RepoFields3, RepoFields4, w);
    OptionalConcat(RepoFields5, RepoFields6, w);
  }

  /** Exactly four fields of `Repo` are optional. */
  lemma RepoOptionalExactly()
    ensures OptionalExactly(RepoKind, RepoOptionalWires)
  {
    var w := RepoOptionalWires;
    var low, mid, high := RepoFields0 + RepoFields1 + RepoFields2, RepoFields3 + RepoFields4, RepoFields5 + RepoFields6;
    RepoFieldsOptionalLow();
    RepoFieldsOptionalHigh();
    OptionalConcat(low, mid, w);
    OptionalConcat(low + mid, high, w);
    assert RepoKind.fields == low + mid + high;
  }

  /** A repository missing any field other than description, mirror_url, homepage and
      language does not decode. */
  lemma RepoRequired(entries: seq<(string, JValue)>, n: nat)
    requires n < |RepoKind.fields| && RepoKind.fields[n].wire !in Keys(entries)
    requires RepoKind.fields[n].wire !in RepoOptionalWires
    ensures Decode(RepoKind, JObj(entries)).Err?
  {
    RepoOptionalExactly();
    RequiredUnlessListed(RepoKind, RepoOptionalWires, entries, n);
  }

  /** A repository without a description, mirror, homepage or language reads them as `None`. */
  lemma RepoOptional(entries: seq<(string, JValue)>)
    requires Decode(RepoKind, JObj(entries)).Ok?
    ensures "description" !in Keys(entries) ==> Decode(RepoKind, JObj(entries)).value.slots[4] == None
    ensures "mirror_url" !in Keys(entries) ==> Decode(RepoKind, JObj(entries)).value.slots[37] == None
    ensures "homepage" !in Keys(entries) ==> Decode(RepoKind, JObj(entries)).value.slots[50] == None
    ensures "language" !in Keys(entries) ==> Decode(RepoKind, JObj(entries)).value.slots[51] == None
  {
    if "description" !in Keys(entries) { AbsentField(RepoKind, entries, 4); }
    if "mirror_url" !in Keys(entries) { AbsentField(RepoKind, entries, 37); }
    if "homepage" !in Keys(entries) { AbsentField(RepoKind, entries, 50); }
    if "language" !in Keys(entries) { AbsentField(RepoKind, entries, 51); }
  }
  /** `RepoOptions`: the body that creates a repository; `team_id` is an `i32`. */
  datatype RepoOptions = RepoOptions(
    name: string,
    description: Option<string>,
    homepage: Option<string>,
    private: Option<bool>,
    hasIssues: Option<bool>,
    hasWiki: Option<bool>,
    hasDownloads: Option<bool>,
    teamId: Option<int>,
    autoInit: Option<bool>,
    gitignoreTemplate: Option<string>,
    licenseTemplate: Option<string>)

  /** Declaration order; every field but the name skipped when `None`. */
  const RepoOptionsKind := KRec([
    Req("name", KStr), OptSkip("description", KStr), OptSkip("homepage", KStr),
    OptSkip("private", KBool), OptSkip("has_issues", KBool), OptSkip("has_wiki", KBool),
    OptSkip("has_downloads", KBool), OptSkip("team_id", I32), OptSkip("auto_init", KBool),
    OptSkip("gitignore_template", KStr), OptSkip("license_template", KStr)])

  function RepoOptionsVal(o: RepoOptions): (v: Val)
    ensures v.VRec? && |v.slots| == |RepoOptionsKind.fields|
  {
    VRec([Some(VStr(o.name)), OptStrVal(o.description), OptStrVal(o.homepage), OptBoolVal(o.private), OptBoolVal(o.hasIssues), OptBoolVal(o.hasWiki), OptBoolVal(o.hasDownloads), OptIntVal(o.teamId), OptBoolVal(o.autoInit), OptStrVal(o.gitignoreTemplate), OptStrVal(o.licenseTemplate)])
  }

  /** The JSON `serde_json` writes for the options. */
  function RepoOptionsJson(o: RepoOptions): JValue {
    Encode(RepoOptionsKind, RepoOptionsVal(o))
  }

  /** The name is always written, and written first. */
  lemma RepoOptionsNameFirst(o: RepoOptions)
    ensures RepoOptionsJson(o).JObj? && |RepoOptionsJson(o).entries| > 0
    ensures RepoOptionsJson(o).entries[0] == ("name", JStr(o.name))
  {
    EncodeFirstString(RepoOptionsKind, RepoOptionsVal(o).slots, "name", o.name);
  }

  /** Each text field is left out when `None` and written once, with its value, when set. */
  lemma RepoOptionsBody(o: RepoOptions)
    ensures Occurrences(RepoOptionsJson(o).entries, "description") == StrFound(o.description)
    ensures Occurrences(RepoOptionsJson(o).entries, "homepage") == StrFound(o.homepage)
    ensures Occurrences(RepoOptionsJson(o).entries, "gitignore_template") == StrFound(o.gitignoreTemplate)
    ensures Occurrences(RepoOptionsJson(o).entries, "license_template") == StrFound(o.licenseTemplate)
  {
    RepoOptionsStrAt(o, 1, o.description);
    RepoOptionsStrAt(o, 2, o.homepage);
    RepoOptionsStrAt(o, 9, o.gitignoreTemplate);
    RepoOptionsStrAt(o, 10, o.licenseTemplate);
  }

  /** The flags and numbers of the body: each is left out when `None` and written once, with
      its value, when set. */
  lemma RepoOptionsBodyFlags(o: RepoOptions)
    ensures Occurrences(RepoOptionsJson(o).entries, "private") == BoolFound(o.private)
    ensures Occurrences(RepoOptionsJson(o).entries, "has_issues") == BoolFound(o.hasIssues)
    ensures Occurrences(RepoOptionsJson(o).entries, "has_wiki") == BoolFound(o.hasWiki)
    ensures Occurrences(RepoOptionsJson(o).entries, "has_downloads") == BoolFound(o.hasDownloads)
    ensures Occurrences(RepoOptionsJson(o).entries, "team_id") == IntFound(o.teamId)
    ensures Occurrences(RepoOptionsJson(o).entries, "auto_init") == BoolFound(o.autoInit)
  {
    RepoOptionsBoolAt(o, 3, o.private);
    RepoOptionsBoolAt(o, 4, o.hasIssues);
    RepoOptionsBoolAt(o, 5, o.hasWiki);
    RepoOptionsBoolAt(o, 6, o.hasDownloads);
    RepoOptionsIntAt(o, 7, o.teamId);
    RepoOptionsBoolAt(o, 8, o.autoInit);
  }

  /** One field of the creation body, named by its position. */
  lemma RepoOptionsStrAt(o: RepoOptions, n: nat, x: Option<string>)
    requires n < |RepoOptionsKind.fields| && RepoOptionsKind.fields[n] == OptSkip(RepoOptionsKind.fields[n].wire, KStr)
    requires RepoOptionsVal(o).slots[n] == OptStrVal(x)
    ensures Occurrences(RepoOptionsJson(o).entries, RepoOptionsKind.fields[n].wire) == StrFound(x)
  {
    RepoOptionsWiresDistinct();
    EncodedStrField(RepoOptionsKind, RepoOptionsVal(o).slots, n, x);
  }

  lemma RepoOptionsBoolAt(o: RepoOptions, n: nat, x: Option<bool>)
    requires n < |RepoOptionsKind.fields| && RepoOptionsKind.fields[n] == OptSkip(RepoOptionsKind.fields[n].wire, KBool)
    requires RepoOptionsVal(o).slots[n] == OptBoolVal(x)
    ensures Occurrences(RepoOptionsJson(o).entries, RepoOptionsKind.fields[n].wire) == BoolFound(x)
  {
    RepoOptionsWiresDistinct();
    EncodedBoolField(RepoOptionsKind, RepoOptionsVal(o).slots, n, x);
  }

  lemma RepoOptionsIntAt(o: RepoOptions, n: nat, x: Option<int>)
    requires n < |RepoOptionsKind.fields| && RepoOptionsKind.fields[n].skip == IfNone && RepoOptionsKind.fields[n].kind == I32
    requires RepoOptionsVal(o).slots[n] == OptIntVal(x)
    ensures Occurrences(RepoOptionsJson(o).entries, RepoOptionsKind.fields[n].wire) == IntFound(x)
  {
    RepoOptionsWiresDistinct();
    EncodedIntField(RepoOptionsKind, RepoOptionsVal(o).slots, n, x);
  }

  lemma RepoOptionsWiresDistinct()
    ensures forall a, b :: 0 <= a < b < |RepoOptionsKind.fields| ==> RepoOptionsKind.fields[a].wire != RepoOptionsKind.fields[b].wire
  {
  }

  /** Options with only a name serialize to the name alone. */
  lemma RepoOptionsNameOnly(name: string)
    ensures RepoOptionsJson(NewRepoOptions(name)) == JObj([("name", JStr(name))])
  {
    RepoOptionsRestSkipped(name);
    EncodeOnlyFirstString(RepoOptionsKind, RepoOptionsVal(NewRepoOptions(name)).slots, "name", name);
  }

  lemma RepoOptionsRestSkipped(name: string)
    ensures forall n :: 1 <= n < |RepoOptionsKind.fields| ==>
      RepoOptionsKind.fields[n].skip == IfNone &&
      (n < |RepoOptionsVal(NewRepoOptions(name)).slots| ==> RepoOptionsVal(NewRepoOptions(name)).slots[n] == None)
  {
  }

  /** `RepoOptions::new(name)`: the name, every other field `None`. */
  function NewRepoOptions(name: string): (o: RepoOptions)
    ensures o.name == name
  {
    RepoOptions(name, None, None, None, None, None, None, None, None, None, None)
  }

  /** `RepoOptionsBuilder`: starts from the name alone; each setter fills in one field. */
  class RepoOptionsBuilder {
    var options: RepoOptions

    constructor (name: string)
      ensures options == NewRepoOptions(name)
    {
      options := NewRepoOptions(name);
    }

    /** `description`: sets that field alone. */
    method SetDescription(value: string)
      modifies this
      ensures options == old(options).(description := Some(value))
    {
      options := options.(description := Some(value));
    }

    /** `homepage`: sets that field alone. */
    method SetHomepage(value: string)
      modifies this
      ensures options == old(options).(homepage := Some(value))
    {
      options := options.(homepage := Some(value));
    }

    /** `private`: sets that field alone. */
    method SetPrivate(value: bool)
      modifies this
      ensures options == old(options).(private := Some(value))
    {
      options := options.(private := Some(value));
    }

    /** `has_issues`: sets that field alone. */
    method SetHasIssues(value: bool)
      modifies this
      ensures options == old(options).(hasIssues := Some(value))
    {
      options := options.(hasIssues := Some(value));
    }

    /** `has_wiki`: sets that field alone. */
    method SetHasWiki(value: bool)
      modifies this
      ensures options == old(options).(hasWiki := Some(value))
    {
      options := options.(hasWiki := Some(value));
    }

    /** `has_downloads`: sets that field alone. */
    method SetHasDownloads(value: bool)
      modifies this
      ensures options == old(options).(hasDownloads := Some(value))
    {
      options := options.(hasDownloads := Some(value));
    }

    /** `team_id`: sets that field alone. */
    method SetTeamId(value: int)
      modifies this
      ensures options == old(options).(teamId := Some(value))
    {
      options := options.(teamId := Some(value));
    }

    /** `auto_init`: sets that field alone. */
    method SetAutoInit(value: bool)
      modifies this
      ensures options == old(options).(autoInit := Some(value))
    {
      options := options.(autoInit := Some(value));
    }

    /** `gitignore_template`: sets that field alone. */
    method SetGitignoreTemplate(value: string)
      modifies this
      ensures options == old(options).(gitignoreTemplate := Some(value))
    {
      options := options.(gitignoreTemplate := Some(value));
    }

    /** `license_template`: sets that field alone. */
    method SetLicenseTemplate(value: string)
      modifies this
      ensures options == old(options).(licenseTemplate := Some(value))
    {
      options := options.(licenseTemplate := Some(value));
    }

    /** `build`: every field passed through `RepoOptions::new` unchanged. */
    function Build(): (o: RepoOptions)
      reads this
      ensures o == options
    {
      options
    }
  }

  /** `RepoEditOptions`: the body that edits a repository. */
  datatype RepoEditOptions = RepoEditOptions(
    name: string,
    description: Option<string>,
    homepage: Option<string>,
    private: Option<bool>,
    hasIssues: Option<bool>,
    hasProjects: Option<bool>,
    hasWiki: Option<bool>,
    defaultBranch: Option<string>,
    allowSquashMerge: Option<bool>,
    allowMergeCommit: Option<bool>,
    allowRebaseMerge: Option<bool>)

  /** Declaration order; every field but the name skipped when `None`. */
  const RepoEditOptionsKind := KRec([
    Req("name", KStr), OptSkip("description", KStr), OptSkip("homepage", KStr),
    OptSkip("private", KBool), OptSkip("has_issues", KBool), OptSkip("has_projects", KBool),
    OptSkip("has_wiki", KBool), OptSkip("default_branch", KStr),
    OptSkip("allow_squash_merge", KBool), OptSkip("allow_merge_commit", KBool),
    OptSkip("allow_rebase_merge", KBool)])

  function RepoEditOptionsVal(o: RepoEditOptions): (v: Val)
    ensures v.VRec? && |v.slots| == |RepoEditOptionsKind.fields|
  {
    VRec([Some(VStr(o.name)), OptStrVal(o.description), OptStrVal(o.homepage), OptBoolVal(o.private), OptBoolVal(o.hasIssues), OptBoolVal(o.hasProjects), OptBoolVal(o.hasWiki), OptStrVal(o.defaultBranch), OptBoolVal(o.allowSquashMerge), OptBoolVal(o.allowMergeCommit), OptBoolVal(o.allowRebaseMerge)])
  }

  /** The JSON `serde_json` writes for the options. */
  function RepoEditOptionsJson(o: RepoEditOptions): JValue {
    Encode(RepoEditOptionsKind, RepoEditOptionsVal(o))
  }

  /** The name is always written, and written first. */
  lemma RepoEditOptionsNameFirst(o: RepoEditOptions)
    ensures RepoEditOptionsJson(o).JObj? && |RepoEditOptionsJson(o).entries| > 0
    ensures RepoEditOptionsJson(o).entries[0] == ("name", JStr(o.name))
  {
    EncodeFirstString(RepoEditOptionsKind, RepoEditOptionsVal(o).slots, "name", o.name);
  }

  /** Each text field is left out when `None` and written once, with its value, when set. */
  lemma RepoEditOptionsBody(o: RepoEditOptions)
    ensures Occurrences(RepoEditOptionsJson(o).entries, "description") == StrFound(o.description)
    ensures Occurrences(RepoEditOptionsJson(o).entries, "homepage") == StrFound(o.homepage)
    ensures Occurrences(RepoEditOptionsJson(o).entries, "default_branch") == StrFound(o.defaultBranch)
  {
    RepoEditOptionsStrAt(o, 1, o.description);
    RepoEditOptionsStrAt(o, 2, o.homepage);
    RepoEditOptionsStrAt(o, 7, o.defaultBranch);
  }

  /** The flags of the body: each is left out when `None` and written once, with its value,
      when set. */
  lemma RepoEditOptionsBodyFlags(o: RepoEditOptions)
    ensures Occurrences(RepoEditOptionsJson(o).entries, "private") == BoolFound(o.private)
    ensures Occurrences(RepoEditOptionsJson(o).entries, "has_issues") == BoolFound(o.hasIssues)
    ensures Occurrences(RepoEditOptionsJson(o).entries, "has_projects") == BoolFound(o.hasProjects)
    ensures Occurrences(RepoEditOptionsJson(o).entries, "has_wiki") == BoolFound(o.hasWiki)
    ensures Occurrences(RepoEditOptionsJson(o).entries, "allow_squash_merge") == BoolFound(o.allowSquashMerge)
    ensures Occurrences(RepoEditOptionsJson(o).entries, "allow_merge_commit") == BoolFound(o.allowMergeCommit)
    ensures Occurrences(RepoEditOptionsJson(o).entries, "allow_rebase_merge") == BoolFound(o.allowRebaseMerge)
  {
    RepoEditOptionsBoolAt(o, 3, o.private);
    RepoEditOptionsBoolAt(o, 4, o.hasIssues);
    RepoEditOptionsBoolAt(o, 5, o.hasProjects);
    RepoEditOptionsBoolAt(o, 6, o.hasWiki);
    RepoEditOptionsBoolAt(o, 8, o.allowSquashMerge);
    RepoEditOptionsBoolAt(o, 9, o.allowMergeCommit);
    RepoEditOptionsBoolAt(o, 10, o.allowRebaseMerge);
  }

  /** One field of the edit body, named by its position. */
  lemma RepoEditOptionsStrAt(o: RepoEditOptions, n: nat, x: Option<string>)
    requires n < |RepoEditOptionsKind.fields| && RepoEditOptionsKind.fields[n] == OptSkip(RepoEditOptionsKind.fields[n].wire, KStr)
    requires RepoEditOptionsVal(o).slots[n] == OptStrVal(x)
    ensures Occurrences(RepoEditOptionsJson(o).entries, RepoEditOptionsKind.fields[n].wire) == StrFound(x)
  {
    RepoEditOptionsWiresDistinct();
    EncodedStrField(RepoEditOptionsKind, RepoEditOptionsVal(o).slots, n, x);
  }

  lemma RepoEditOptionsBoolAt(o: RepoEditOptions, n: nat, x: Option<bool>)
    requires n < |RepoEditOptionsKind.fields| && RepoEditOptionsKind.fields[n] == OptSkip(RepoEditOptionsKind.fields[n].wire, KBool)
    requires RepoEditOptionsVal(o).slots[n] == OptBoolVal(x)
    ensures Occurrences(RepoEditOptionsJson(o).entries, RepoEditOptionsKind.fields[n].wire) == BoolFound(x)
  {
    RepoEditOptionsWiresDistinct();
    EncodedBoolField(RepoEditOptionsKind, RepoEditOptionsVal(o).slots, n, x);
  }

  lemma RepoEditOptionsWiresDistinct()
    ensures forall a, b :: 0 <= a < b < |RepoEditOptionsKind.fields| ==> RepoEditOptionsKind.fields[a].wire != RepoEditOptionsKind.fields[b].wire
  {
  }

  /** Options with only a name serialize to the name alone. */
  lemma RepoEditOptionsNameOnly(name: string)
    ensures RepoEditOptionsJson(NewRepoEditOptions(name)) == JObj([("name", JStr(name))])
  {
    RepoEditOptionsRestSkipped(name);
    EncodeOnlyFirstString(RepoEditOptionsKind, RepoEditOptionsVal(NewRepoEditOptions(name)).slots, "name", name);
  }
  lemma RepoEditOptionsRestSkipped(name: string)
    ensures forall n :: 1 <= n < |RepoEditOptionsKind.fields| ==>
      RepoEditOptionsKind.fields[n].skip == IfNone &&
      (n < |RepoEditOptionsVal(NewRepoEditOptions(name)).slots| ==> RepoEditOptionsVal(NewRepoEditOptions(name)).slots[n] == None)
  {
  }


  /** `RepoEditOptions::new(name)`: the name, every other field `None`. */
  function NewRepoEditOptions(name: string): (o: RepoEditOptions)
    ensures o.name == name
  {
    RepoEditOptions(name, None, None, None, None, None, None, None, None, None, None)
  }

  /** `RepoEditOptionsBuilder`: starts from the name alone; each setter fills in one field. */
  class RepoEditOptionsBuilder {
    var options: RepoEditOptions

    constructor (name: string)
      ensures options == NewRepoEditOptions(name)
    {
      options := NewRepoEditOptions(name);
    }

    /** `description`: sets that field alone. */
    method SetDescription(value: string)
      modifies this
      ensures options == old(options).(description := Some(value))
    {
      options := options.(description := Some(value));
    }

    /** `homepage`: sets that field alone. */
    method SetHomepage(value: string)
      modifies this
      ensures options == old(options).(homepage := Some(value))
    {
      options := options.(homepage := Some(value));
    }

    /** `private`: sets that field alone. */
    method SetPrivate(value: bool)
      modifies this
      ensures options == old(options).(private := Some(value))
    {
      options := options.(private := Some(value));
    }

    /** `has_issues`: sets that field alone. */
    method SetHasIssues(value: bool)
      modifies this
      ensures options == old(options).(hasIssues := Some(value))
    {
      options := options.(hasIssues := Some(value));
    }

    /** `has_projects`: sets that field alone. */
    method SetHasProjects(value: bool)
      modifies this
      ensures options == old(options).(hasProjects := Some(value))
    {
      options := options.(hasProjects := Some(value));
    }

    /** `has_wiki`: sets that field alone. */
    method SetHasWiki(value: bool)
      modifies this
      ensures options == old(options).(hasWiki := Some(value))
    {
      options := options.(hasWiki := Some(value));
    }

    /** `default_branch`: sets that field alone. */
    method SetDefaultBranch(value: string)
      modifies this
      ensures options == old(options).(defaultBranch := Some(value))
    {
      options := options.(defaultBranch := Some(value));
    }

    /** `allow_squash_merge`: sets that field alone. */
    method SetAllowSquashMerge(value: bool)
      modifies this
      ensures options == old(options).(allowSquashMerge := Some(value))
    {
      options := options.(allowSquashMerge := Some(value));
    }

    /** `allow_merge_commit`: sets that field alone. */
    method SetAllowMergeCommit(value: bool)
      modifies this
      ensures options == old(options).(allowMergeCommit := Some(value))
    {
      options := options.(allowMergeCommit := Some(value));
    }

    /** `allow_rebase_merge`: sets that field alone. */
    method SetAllowRebaseMerge(value: bool)
      modifies this
      ensures options == old(options).(allowRebaseMerge := Some(value))
    {
      options := options.(allowRebaseMerge := Some(value));
    }

    /** `build`: every field passed through `RepoEditOptions::new` unchanged. */
    function Build(): (o: RepoEditOptions)
      reads this
      ensures o == options
    {
      options
    }
  }
}
