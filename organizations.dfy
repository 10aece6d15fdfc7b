/** Organizations: the authenticated user's and another user's organizations, the team and
    repository operations of one organization, and the organization record. */
module Organizations {
  import opened Wrappers
  import opened Json
  import opened Schema
  import Client
  import Teams
  import Repositories
  import QueryParams

  /** `Organizations::path`: the authenticated user's organizations, with `more` after. */
  function MinePath(more: string): string {
    "/user/orgs" + more
  }

  /** `Organizations::list`. */
  function ListMine(): (req: Client.Call)
    ensures req == Client.Call(Client.Get, "/user/orgs", Client.NoBody)
  {
    Client.GetCall(MinePath(""))
  }

  /** `UserOrganizations`: the organizations one user publicly belongs to. */
  datatype UserOrganizations = UserOrganizations(user: string)

  /** `UserOrganizations::path`. */
  function UserPath(u: UserOrganizations, more: string): string {
    "/users/" + u.user + "/orgs" + more
  }

  /** `UserOrganizations::list`. */
  function ListForUser(u: UserOrganizations): (req: Client.Call)
    ensures req == Client.Call(Client.Get, "/users/" + u.user + "/orgs", Client.NoBody)
  {
    Client.GetCall(UserPath(u, ""))
  }

  /** The authenticated user's organizations are read at "/user/orgs", another user's below
      that user. */
  lemma ListCalls(u: UserOrganizations)
    ensures ListMine() == Client.Call(Client.Get, "/user/orgs", Client.NoBody)
    ensures ListForUser(u) == Client.Call(Client.Get, "/users/" + u.user + "/orgs", Client.NoBody)
  {
  }

  /** `Organization`: the operations of one organization. */
  datatype Organization = Organization(org: string)

  /** `teams`: the organization's teams. */
  function TeamsOf(o: Organization): (t: Teams.OrgTeams)
    ensures t.org == o.org
  {
    Teams.OrgTeams(o.org)
  }

  /** `repos`: the organization's repositories, which the repository listings address by the
      organization's name. */
  function ReposOf(o: Organization): (org: string)
    ensures org == o.org
  {
    o.org
  }

  /** The teams and repositories handed out list below the same organization. */
  lemma OrganizationParts(o: Organization)
    ensures Teams.OrgTeamsList(TeamsOf(o)).uri == "/orgs/" + o.org + "/teams"
    ensures Repositories.ListOrg(ReposOf(o), []).uri == "/orgs/" + o.org + "/repos"
  {
  }

  /** `Org`: only the description may be missing. */
  const OrgKind := KRec([
    Req("login", KStr), Req("id", U64), Req("url", KStr), Req("repos_url", KStr), Req("events_url", KStr),
    Req("hooks_url", KStr), Req("issues_url", KStr), Req("members_url", KStr), Req("public_members_url", KStr),
    Req("avatar_url", KStr), Opt("description", KStr)])

  lemma OrgOptionalExactly()
    ensures OptionalExactly(OrgKind, {"description"})
  {
  }

  /** An organization missing its description, or giving it as `null`, reads it as `None`;
      one missing any other field does not decode. */
  lemma OrgFields(entries: seq<(string, JValue)>, n: nat)
    requires n < |OrgKind.fields|
    ensures OrgKind.fields[n].wire !in Keys(entries) && n != 10 ==> Decode(OrgKind, JObj(entries)).Err?
    ensures n == 10 && ("description" !in Keys(entries) || Occurrences(entries, "description") == Once(JNull)) ==>
      Decode(OrgKind, JObj(entries)).Ok? ==> Decode(OrgKind, JObj(entries)).value.slots[10] == None
  {
    if OrgKind.fields[n].wire !in Keys(entries) {
      AbsentField(OrgKind, entries, n);
    } else if n == 10 && Occurrences(entries, "description") == Once(JNull) {
      NullField(OrgKind, entries, 10);
    }
  }
}
