/** The commits of a pull request: listing them and streaming them, with the module's own
    copies of the commit records. */
module PullCommits {
  import opened Wrappers
  import opened Json
  import opened Schema
  import Text
  import Client
  import Unfold
  import Users
  import RepoCommits

  /** `PullCommits`: the commits of one pull request. */
  datatype PullCommitsApi = PullCommitsApi(owner: string, repo: string, number: Uint64)

  function Path(p: PullCommitsApi): string {
    "/repos/" + p.owner + "/" + p.repo + "/pulls/" + Text.NatToString(p.number) + "/commits"
  }

  function List(p: PullCommitsApi): (req: Client.Call)
    ensures req == Client.Call(Client.Get, "/repos/" + p.owner + "/" + p.repo + "/pulls/" + Text.NatToString(p.number) + "/commits", Client.NoBody)
  {
    Client.GetCall(Path(p))
  }

  /** `iter`: the first request of the stream over every page. */
  function Iter(p: PullCommitsApi): (req: Client.Call)
    ensures req == Client.Call(Client.Get, "/repos/" + p.owner + "/" + p.repo + "/pulls/" + Text.NatToString(p.number) + "/commits", Client.NoBody)
  {
    Client.GetCall(Path(p))
  }

  /** Listing and streaming read the same page below the pull request. */
  lemma PullCommitCalls(p: PullCommitsApi)
    ensures List(p) == Iter(p) ==
      Client.Call(Client.Get, "/repos/" + p.owner + "/" + p.repo + "/pulls/" + Text.NatToString(p.number) + "/commits", Client.NoBody)
  {
  }

  /** `identity`: what the stream makes of a page, which is already the list of commits. */
  function Identity<T>(page: seq<T>): seq<T> {
    page
  }

  /** A loaded page holds exactly the commits of the page, and the stream gives them all out,
      last first, before it asks for the next page. */
  lemma {:induction false} IterPage<T>(page: seq<T>, link: Option<Unfold.Link>)
    ensures Unfold.Load(Ok((link, page)), Identity) == Unfold.State(Some(Ok(page)), link)
    ensures Unfold.Steps(Unfold.Load(Ok((link, page)), Identity), |page|).0 == Unfold.Oks(Unfold.Reverse(page))
  {
    Unfold.DrainPage(page, link);
  }

  /** The module's own `UserStamp`, `CommitRef` and `CommitDetails`. */
  const UserStampKind := KRec([Req("name", KStr), Req("email", KStr), Req("date", KStr)])

  const CommitRefKind := KRec([Req("url", KStr), Req("sha", KStr)])

  const CommitDetailsKind := KRec([
    Req("url", KStr), Req("author", UserStampKind), Opt("committer", UserStampKind), Req("message", KStr),
    Req("tree", CommitRefKind), Req("comment_count", U64)])

  /** `PullCommit`. */
  const PullCommitKind := KRec([
    Req("url", KStr), Req("sha", KStr), Req("html_url", KStr), Req("comments_url", KStr),
    Req("commit", CommitDetailsKind), Req("author", Users.UserKind), Req("committer", Users.UserKind),
    Req("parents", KList(CommitRefKind))])

  /** The copies read the same JSON as the repository's commit records, field for field. */
  lemma SameAsRepoCommits()
    ensures PullCommitKind == RepoCommits.RepoCommitKind
    ensures CommitDetailsKind == RepoCommits.CommitDetailsKind
  {
  }

  /** A pull commit missing any field does not decode; details missing the committer read it
      as `None`, and details missing any other field do not decode. */
  lemma PullCommitFields(entries: seq<(string, JValue)>, n: nat)
    ensures n < 8 && PullCommitKind.fields[n].wire !in Keys(entries) ==> Decode(PullCommitKind, JObj(entries)).Err?
    ensures n < 6 && n != 2 && CommitDetailsKind.fields[n].wire !in Keys(entries) ==>
      Decode(CommitDetailsKind, JObj(entries)).Err?
    ensures "committer" !in Keys(entries) && Decode(CommitDetailsKind, JObj(entries)).Ok? ==>
      Decode(CommitDetailsKind, JObj(entries)).value.slots[2] == None
  {
    if n < 8 && PullCommitKind.fields[n].wire !in Keys(entries) { AbsentField(PullCommitKind, entries, n); }
    if n < 6 && CommitDetailsKind.fields[n].wire !in Keys(entries) { AbsentField(CommitDetailsKind, entries, n); }
    if "committer" !in Keys(entries) { AbsentField(CommitDetailsKind, entries, 2); }
  }
}
