/** Users: the public profile of an account, the profile of the authenticated user, and the
    requests that read them and a repository's contributors. */
module Users {
  import opened Wrappers
  import opened Json
  import opened Schema
  import Client

  /** `User`: sixteen plain fields, none of them optional. The "type" key GitHub sends is not
      declared, so it is ignored. */
  const UserFields := [
    Req("login", KStr), Req("id", U64), Req("avatar_url", KStr), Req("gravatar_id", KStr),
    Req("url", KStr), Req("html_url", KStr), Req("followers_url", KStr),
    Req("following_url", KStr), Req("gists_url", KStr), Req("starred_url", KStr),
    Req("subscriptions_url", KStr), Req("organizations_url", KStr), Req("repos_url", KStr),
    Req("events_url", KStr), Req("received_events_url", KStr), Req("site_admin", KBool)]

  const UserKind := KRec(UserFields)

  /** `AuthenticatedUser`: the fields of `User`, then the private profile. */
  const AuthenticatedUserKind := KRec(UserFields + [
    Opt("name", KStr), Opt("company", KStr), Req("blog", KStr), Opt("location", KStr),
    Opt("email", KStr), Opt("hireable", KBool), Opt("bio", KStr), Req("public_repos", U64),
    Req("public_gists", U64), Req("followers", U64), Req("following", U64),
    Req("created_at", KStr), Req("updated_at", KStr)])

  /** A user object missing any of the sixteen fields does not decode. */
  lemma UserRequiresAll(entries: seq<(string, JValue)>, n: nat)
    requires n < 16 && UserFields[n].wire !in Keys(entries)
    ensures Decode(UserKind, JObj(entries)).Err?
  {
    AbsentField(UserKind, entries, n);
  }

  /** The authenticated profile declares the user's fields first; a missing "name" reads as
      `None` while a missing "blog" fails. */
  lemma AuthenticatedUserFields(entries: seq<(string, JValue)>)
    ensures AuthenticatedUserKind.fields[..16] == UserKind.fields
    ensures "blog" !in Keys(entries) ==> Decode(AuthenticatedUserKind, JObj(entries)).Err?
    ensures "name" !in Keys(entries) && Decode(AuthenticatedUserKind, JObj(entries)).Ok? ==>
      Decode(AuthenticatedUserKind, JObj(entries)).value.slots[16] == None
  {
    if "blog" !in Keys(entries) {
      AbsentField(AuthenticatedUserKind, entries, 18);
    }
    if "name" !in Keys(entries) {
      AbsentField(AuthenticatedUserKind, entries, 16);
    }
  }

  /** `Users::authenticated`. */
  function Authenticated(): (req: Client.Call)
    ensures req == Client.Call(Client.Get, "/user", Client.NoBody)
  {
    Client.GetCall("/user")
  }

  /** `Users::get`. */
  function Get(username: string): (req: Client.Call)
    ensures req == Client.Call(Client.Get, "/users/" + username, Client.NoBody)
  {
    Client.GetCall("/users/" + username)
  }

  /** The account of a user, and the account of whoever the token belongs to. */
  lemma UserPaths(username: string)
    ensures Authenticated() == Client.Call(Client.Get, "/user", Client.NoBody)
    ensures Get(username).verb == Client.Get && Get(username).uri[..7] == "/users/"
    ensures Get(username).uri[7..] == username
  {
  }

  /** `Contributors`: a repository's contributors. */
  datatype Contributors = Contributors(owner: string, repo: string)

  function ContributorsPath(c: Contributors): string {
    "/repos/" + c.owner + "/" + c.repo + "/contributors"
  }

  /** `Contributors::list`: one page. */
  function ContributorsList(c: Contributors): (req: Client.Call)
    ensures req == Client.Call(Client.Get, "/repos/" + c.owner + "/" + c.repo + "/contributors", Client.NoBody)
  {
    Client.GetCall(ContributorsPath(c))
  }

  /** `Contributors::iter`: the first request of the stream over every page. */
  function ContributorsIter(c: Contributors): (req: Client.Call)
    ensures req == Client.Call(Client.Get, "/repos/" + c.owner + "/" + c.repo + "/contributors", Client.NoBody)
  {
    Client.GetCall(ContributorsPath(c))
  }

  /** A page and the stream start from the same request. */
  lemma ContributorsSamePath(c: Contributors)
    ensures ContributorsList(c) == ContributorsIter(c)
    ensures ContributorsList(c).uri == "/repos/" + c.owner + "/" + c.repo + "/contributors"
  {
  }
}
