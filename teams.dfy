/** Teams: the teams of a repository and of an organization, the requests on one team and its
    memberships, the permission a team is granted on a repository, and the team records. */
module Teams {
  import opened Wrappers
  import opened Json
  import opened Schema
  import Text
  import Client

  /** `Permission`: what a team may do with a repository. */
  datatype Permission = Pull | Push | Admin

  /** `Display for Permission`. */
  function PermissionText(p: Permission): string {
    match p
    case Pull => "pull"
    case Push => "push"
    case Admin => "admin"
  }

  /** The three permissions are written differently, so the text names the permission. */
  lemma PermissionTextDistinct(p: Permission, q: Permission)
    ensures PermissionText(p) == PermissionText(q) <==> p == q
    ensures PermissionText(p) in ["pull", "push", "admin"]
  {
  }

  /** `RepoTeams`: the teams with access to one repository. */
  datatype RepoTeams = RepoTeams(owner: string, repo: string)

  function RepoTeamsPath(t: RepoTeams): string {
    "/repos/" + t.owner + "/" + t.repo + "/teams"
  }

  /** `RepoTeams::list`: one page. */
  function RepoTeamsList(t: RepoTeams): (req: Client.Call)
    ensures req == Client.Call(Client.Get, "/repos/" + t.owner + "/" + t.repo + "/teams", Client.NoBody)
  {
    Client.GetCall(RepoTeamsPath(t))
  }

  /** `RepoTeams::iter`: the first request of the stream over every page. */
  function RepoTeamsIter(t: RepoTeams): (req: Client.Call)
    ensures req == Client.Call(Client.Get, "/repos/" + t.owner + "/" + t.repo + "/teams", Client.NoBody)
  {
    Client.GetCall(RepoTeamsPath(t))
  }

  /** A page and the stream of a repository's teams start from the same request. */
  lemma RepoTeamsCalls(t: RepoTeams)
    ensures RepoTeamsList(t) == RepoTeamsIter(t)
    ensures RepoTeamsList(t) == Client.Call(Client.Get, "/repos/" + t.owner + "/" + t.repo + "/teams", Client.NoBody)
  {
  }

  /** `OrgTeams`: the teams of one organization. */
  datatype OrgTeams = OrgTeams(org: string)

  function OrgTeamsPath(t: OrgTeams): string {
    "/orgs/" + t.org + "/teams"
  }

  /** `OrgTeams::list`: one page. */
  function OrgTeamsList(t: OrgTeams): (req: Client.Call)
    ensures req == Client.Call(Client.Get, "/orgs/" + t.org + "/teams", Client.NoBody)
  {
    Client.GetCall(OrgTeamsPath(t))
  }

  /** `OrgTeams::iter`: the first request of the stream over every page. */
  function OrgTeamsIter(t: OrgTeams): (req: Client.Call)
    ensures req == Client.Call(Client.Get, "/orgs/" + t.org + "/teams", Client.NoBody)
  {
    Client.GetCall(OrgTeamsPath(t))
  }

  /** `OrgTeams::create`: posts the options to the organization's teams. */
  function OrgTeamsCreate(t: OrgTeams, o: TeamOptions): (req: Client.Call)
    ensures req == Client.Call(Client.Post, "/orgs/" + t.org + "/teams", Client.JsonBody(TeamOptionsJson(o)))
  {
    Client.PostCall(OrgTeamsPath(t), TeamOptionsJson(o))
  }

  /** `OrgTeams::get`: the actions on the team with this number. No request is made. */
  function OrgTeamsGet(t: OrgTeams, number: Uint64): OrgTeamActions {
    OrgTeamActions(number)
  }

  /** The body of `add_repo_permission`: the permission's text under "permission". */
  function PermissionBody(p: Permission): JValue {
    JObj([("permission", JStr(PermissionText(p)))])
  }

  /** `OrgTeams::add_repo_permission`: a PUT below the team, not below the organization; the
      organization only names the repository's owner. */
  function AddRepoPermission(t: OrgTeams, teamId: Uint64, repoName: string, p: Permission): (req: Client.Call)
    ensures req == Client.Call(Client.Put, "/teams/" + Text.NatToString(teamId) + "/repos/" + t.org + "/" + repoName, Client.JsonBody(PermissionBody(p)))
  {
    Client.PutCall("/teams/" + Text.NatToString(teamId) + "/repos/" + t.org + "/" + repoName, PermissionBody(p))
  }

  /** Listing, streaming and creating use the organization's teams; granting a permission puts
      the permission's text to the repository below the team `get` addresses. */
  lemma OrgTeamsCalls(t: OrgTeams, teamId: Uint64, repoName: string, p: Permission, o: TeamOptions)
    ensures OrgTeamsList(t) == OrgTeamsIter(t)
    ensures OrgTeamsList(t).uri == OrgTeamsCreate(t, o).uri == "/orgs/" + t.org + "/teams"
    ensures OrgTeamsCreate(t, o).verb == Client.Post && OrgTeamsCreate(t, o).body == Client.JsonBody(TeamOptionsJson(o))
    ensures OrgTeamsGet(t, teamId).number == teamId
    ensures AddRepoPermission(t, teamId, repoName, p).verb == Client.Put
    ensures AddRepoPermission(t, teamId, repoName, p).uri ==
      ActionsPath(OrgTeamsGet(t, teamId), "/repos/" + t.org + "/" + repoName)
    ensures AddRepoPermission(t, teamId, repoName, p).body ==
      Client.JsonBody(JObj([("permission", JStr(PermissionText(p)))]))
  {
  }

  /** `OrgTeamActions`: one team, by number. */
  datatype OrgTeamActions = OrgTeamActions(number: Uint64)

  /** `path`: the team, then the suffix. */
  function ActionsPath(a: OrgTeamActions, suffix: string): string {
    "/teams/" + Text.NatToString(a.number) + suffix
  }

  function TeamGet(a: OrgTeamActions): (req: Client.Call)
    ensures req == Client.Call(Client.Get, "/teams/" + Text.NatToString(a.number), Client.NoBody)
  {
    Client.GetCall(ActionsPath(a, ""))
  }

  /** `update`: patches the team with the options. */
  function TeamUpdate(a: OrgTeamActions, o: TeamOptions): (req: Client.Call)
    ensures req == Client.Call(Client.Patch, "/teams/" + Text.NatToString(a.number), Client.JsonBody(TeamOptionsJson(o)))
  {
    Client.PatchCall(ActionsPath(a, ""), TeamOptionsJson(o))
  }

  function TeamDelete(a: OrgTeamActions): (req: Client.Call)
    ensures req == Client.Call(Client.Delete, "/teams/" + Text.NatToString(a.number), Client.NoBody)
  {
    Client.DeleteCall(ActionsPath(a, ""))
  }

  /** `list_members`: one page. */
  function ListMembers(a: OrgTeamActions): (req: Client.Call)
    ensures req == Client.Call(Client.Get, "/teams/" + Text.NatToString(a.number) + "/members", Client.NoBody)
  {
    Client.GetCall(ActionsPath(a, "/members"))
  }

  /** `iter_members`: the first request of the stream over every page. */
  function IterMembers(a: OrgTeamActions): (req: Client.Call)
    ensures req == Client.Call(Client.Get, "/teams/" + Text.NatToString(a.number) + "/members", Client.NoBody)
  {
    Client.GetCall(ActionsPath(a, "/members"))
  }

  /** `add_user`: puts the member options to the user's membership. */
  function AddUser(a: OrgTeamActions, user: string, o: TeamMemberOptions): (req: Client.Call)
    ensures req == Client.Call(Client.Put, "/teams/" + Text.NatToString(a.number) + "/memberships/" + user, Client.JsonBody(TeamMemberOptionsJson(o)))
  {
    Client.PutCall(ActionsPath(a, "/memberships/" + user), TeamMemberOptionsJson(o))
  }

  /** `remove_user`: deletes the user's membership. */
  function RemoveUser(a: OrgTeamActions, user: string): (req: Client.Call)
    ensures req == Client.Call(Client.Delete, "/teams/" + Text.NatToString(a.number) + "/memberships/" + user, Client.NoBody)
  {
    Client.DeleteCall(ActionsPath(a, "/memberships/" + user))
  }

  /** Reading, editing and deleting a team use the team's uri; members are listed below it and
      a membership is added and removed at the same uri below that. */
  lemma TeamActionCalls(a: OrgTeamActions, user: string, o: TeamOptions, m: TeamMemberOptions)
    ensures TeamGet(a).uri == TeamUpdate(a, o).uri == TeamDelete(a).uri == "/teams/" + Text.NatToString(a.number)
    ensures TeamGet(a).verb == Client.Get && TeamUpdate(a, o).verb == Client.Patch && TeamDelete(a).verb == Client.Delete
    ensures ListMembers(a) == IterMembers(a) && ListMembers(a).uri == TeamGet(a).uri + "/members"
    ensures AddUser(a, user, m).uri == RemoveUser(a, user).uri == TeamGet(a).uri + "/memberships/" + user
    ensures AddUser(a, user, m).verb == Client.Put && AddUser(a, user, m).body == Client.JsonBody(TeamMemberOptionsJson(m))
    ensures RemoveUser(a, user).verb == Client.Delete
  {
  }

  /** A team's uri names its number: two teams addressed by the same uri are one team. */
  lemma TeamPathsDistinct(a: OrgTeamActions, b: OrgTeamActions)
    ensures TeamGet(a).uri == TeamGet(b).uri ==> a.number == b.number
  {
    var x, y := Text.NatToString(a.number), Text.NatToString(b.number);
    assert TeamGet(a).uri == "/teams/" + x && TeamGet(b).uri == "/teams/" + y;
    if TeamGet(a).uri == TeamGet(b).uri {
      assert x == ("/teams/" + x)[7..] == ("/teams/" + y)[7..] == y;
      Text.NatToStringInjective(a.number, b.number);
    }
  }

  /** `TeamMemberRole`, written in lower case. */
  datatype TeamMemberRole = Member | Maintainer

  function TeamMemberRoleTag(r: TeamMemberRole): string {
    match r
    case Member => "member"
    case Maintainer => "maintainer"
  }

  const TeamMemberRoleTags := ["member", "maintainer"]

  /** Reading a role from its tag; there is no fallback variant. */
  function ParseTeamMemberRole(t: string): (r: Option<TeamMemberRole>)
    ensures forall role :: r == Some(role) <==> TeamMemberRoleTag(role) == t
    ensures r.Some? <==> t in TeamMemberRoleTags
  {
    match t
    case "member" => Some(Member)
    case "maintainer" => Some(Maintainer)
    case _ => None
  }

  /** `TeamMemberState`, written in lower case; it is only read. */
  datatype TeamMemberState = Active | Pending

  function TeamMemberStateTag(s: TeamMemberState): string {
    match s
    case Active => "active"
    case Pending => "pending"
  }

  const TeamMemberStateTags := ["active", "pending"]

  function ParseTeamMemberState(t: string): (r: Option<TeamMemberState>)
    ensures forall s :: r == Some(s) <==> TeamMemberStateTag(s) == t
    ensures r.Some? <==> t in TeamMemberStateTags
  {
    match t
    case "active" => Some(Active)
    case "pending" => Some(Pending)
    case _ => None
  }

  const TeamMemberRoleKind := KTag(TeamMemberRoleTags)
  const TeamMemberStateKind := KTag(TeamMemberStateTags)

  /** A role is written as its tag and read back as itself; both enums read exactly their own
      tags, any other string being an unknown variant. */
  lemma TeamMemberTags(role: TeamMemberRole, t: string)
    ensures Encode(TeamMemberRoleKind, VTag(TeamMemberRoleTag(role))) == JStr(TeamMemberRoleTag(role))
    ensures Decode(TeamMemberRoleKind, JStr(TeamMemberRoleTag(role))) == Ok(VTag(TeamMemberRoleTag(role)))
    ensures Decode(TeamMemberRoleKind, JStr(t)) ==
      if ParseTeamMemberRole(t).Some? then Ok(VTag(t)) else Err(UnknownVariant(t))
    ensures Decode(TeamMemberStateKind, JStr(t)) ==
      if ParseTeamMemberState(t).Some? then Ok(VTag(t)) else Err(UnknownVariant(t))
  {
  }

  /** `TeamMemberOptions`: the body of `add_user`. */
  datatype TeamMemberOptions = TeamMemberOptions(role: TeamMemberRole)

  const TeamMemberOptionsKind := KRec([Req("role", TeamMemberRoleKind)])

  function TeamMemberOptionsVal(o: TeamMemberOptions): (v: Val)
    ensures Conforms(TeamMemberOptionsKind, v)
  {
    VRec([Some(VTag(TeamMemberRoleTag(o.role)))])
  }

  function TeamMemberOptionsJson(o: TeamMemberOptions): JValue {
    Encode(TeamMemberOptionsKind, TeamMemberOptionsVal(o))
  }

  /** The options are the role's tag under "role", and a server reads the same role back. */
  lemma TeamMemberOptionsBody(o: TeamMemberOptions)
    ensures TeamMemberOptionsJson(o) == JObj([("role", JStr(TeamMemberRoleTag(o.role)))])
    ensures Decode(TeamMemberOptionsKind, TeamMemberOptionsJson(o)) == Ok(TeamMemberOptionsVal(o))
  {
    var k, slots := TeamMemberOptionsKind, TeamMemberOptionsVal(o).slots;
    var e := ("role", JStr(TeamMemberRoleTag(o.role)));
    assert EncodeSlot(k.fields[0], slots[0]) == [e];
    EncodeFieldsEnd(k, slots);
    EncodeFieldsCons(k, slots, 0);
    RoundTrip(TeamMemberOptionsKind, TeamMemberOptionsVal(o));
  }

  /** `TeamMember`: every field required. */
  const TeamMemberKind := KRec([Req("url", KStr), Req("role", TeamMemberRoleKind), Req("state", TeamMemberStateKind)])

  /** A membership missing a field, or whose role or state is not one of its tags, does not
      decode. */
  lemma TeamMemberRejects(entries: seq<(string, JValue)>, t: string)
    ensures "url" !in Keys(entries) || "role" !in Keys(entries) || "state" !in Keys(entries) ==>
      Decode(TeamMemberKind, JObj(entries)).Err?
    ensures Occurrences(entries, "role") == Once(JStr(t)) && t !in TeamMemberRoleTags ==>
      Decode(TeamMemberKind, JObj(entries)).Err?
    ensures Occurrences(entries, "state") == Once(JStr(t)) && t !in TeamMemberStateTags ==>
      Decode(TeamMemberKind, JObj(entries)).Err?
  {
    var k := TeamMemberKind;
    DecodeSlotCases(k.fields[0], entries);
    DecodeSlotCases(k.fields[1], entries);
    DecodeSlotCases(k.fields[2], entries);
    DecodeRecord(k, entries);
  }

  /** `Team`: only the description is optional. */
  const TeamKind := KRec([
    Req("id", U64), Req("url", KStr), Req("name", KStr), Req("slug", KStr), Opt("description", KStr),
    Req("privacy", KStr), Req("permission", KStr), Req("members_url", KStr), Req("repositories_url", KStr)])

  /** Of a team's fields, only the description is an `Option`. */
  lemma TeamOptionalExactly()
    ensures OptionalExactly(TeamKind, {"description"})
    ensures TeamKind.fields[4].wire == "description"
  {
  }

  /** A team missing its description reads it as `None`; one missing any other field does not
      decode. */
  lemma TeamFields(entries: seq<(string, JValue)>, n: nat)
    requires n < |TeamKind.fields| && TeamKind.fields[n].wire !in Keys(entries)
    ensures n != 4 ==> Decode(TeamKind, JObj(entries)).Err?
    ensures n == 4 && Decode(TeamKind, JObj(entries)).Ok? ==> Decode(TeamKind, JObj(entries)).value.slots[4] == None
  {
    AbsentField(TeamKind, entries, n);
  }

  /** `TeamOptions`: the body of creating or editing a team. */
  datatype TeamOptions = TeamOptions(name: string, description: Option<string>, privacy: Option<string>,
                                     permission: Option<string>)

  const TeamOptionsKind := KRec([
    Req("name", KStr), OptSkip("description", KStr), OptSkip("privacy", KStr), OptSkip("permission", KStr)])

  function TeamOptionsVal(o: TeamOptions): (v: Val)
    ensures Conforms(TeamOptionsKind, v)
  {
    VRec([Some(VStr(o.name)), OptStrVal(o.description), OptStrVal(o.privacy), OptStrVal(o.permission)])
  }

  function TeamOptionsJson(o: TeamOptions): JValue {
    Encode(TeamOptionsKind, TeamOptionsVal(o))
  }

  /** The name is always written; description, privacy and permission only when set, in that
      order. */
  lemma TeamOptionsJsonFields(o: TeamOptions)
    ensures TeamOptionsJson(o) == JObj([("name", JStr(o.name))] + OptEntry("description", o.description) +
      OptEntry("privacy", o.privacy) + OptEntry("permission", o.permission))
  {
    var k, v := TeamOptionsKind, TeamOptionsVal(o);
    EncodeFour(k, v.slots, [("name", JStr(o.name))], OptEntry("description", o.description),
      OptEntry("privacy", o.privacy), OptEntry("permission", o.permission));
  }

  /** What a server reads back from the body is the options that were sent. */
  lemma TeamOptionsRoundTrip(o: TeamOptions)
    ensures Decode(TeamOptionsKind, TeamOptionsJson(o)) == Ok(TeamOptionsVal(o))
  {
    RoundTrip(TeamOptionsKind, TeamOptionsVal(o));
  }
}
