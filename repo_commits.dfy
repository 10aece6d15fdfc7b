/** The commits of a repository: listing them, optionally for one path, streaming them and
    reading one, with the commit records the listing decodes. */
module RepoCommits {
  import opened Wrappers
  import opened Json
  import opened Schema
  import Client
  import Users

  /** `RepoCommits`: the commits of one repository. */
  datatype RepoCommitsApi = RepoCommitsApi(owner: string, repo: string)

  /** The repository's commits. */
  function Base(c: RepoCommitsApi): string {
    "/repos/" + c.owner + "/" + c.repo + "/commits"
  }

  /** `list`: the commits, with "?path=" and the path appended, unescaped, only when the path
      is not empty. */
  method List(c: RepoCommitsApi, path: string) returns (call: Client.Call)
    ensures call.verb == Client.Get && call.body == Client.NoBody
    ensures |Base(c)| <= |call.uri| && call.uri[..|Base(c)|] == Base(c)
    ensures path == "" <==> call.uri == Base(c)
    ensures path != "" ==> call.uri[|Base(c)|..] == "?path=" + path
  {
    var uri := "/repos/" + c.owner + "/" + c.repo + "/commits";
    if path != "" {
      uri := uri + "?path=" + path;
    }
    call := Client.GetCall(uri);
  }

  /** `iter`: the first request of the stream over every page, with no path. */
  function Iter(c: RepoCommitsApi): (req: Client.Call)
    ensures req == Client.Call(Client.Get, "/repos/" + c.owner + "/" + c.repo + "/commits", Client.NoBody)
  {
    Client.GetCall(Base(c))
  }

  /** `get`: one commit, by its ref. */
  function Get(c: RepoCommitsApi, commitRef: string): (req: Client.Call)
    ensures req == Client.Call(Client.Get, "/repos/" + c.owner + "/" + c.repo + "/commits/" + commitRef, Client.NoBody)
  {
    Client.GetCall("/repos/" + c.owner + "/" + c.repo + "/commits/" + commitRef)
  }

  /** A commit is read below the commits, at its ref; the stream starts where an unfiltered
      listing does. */
  lemma CommitCalls(c: RepoCommitsApi, commitRef: string)
    ensures Get(c, commitRef) == Client.Call(Client.Get, Base(c) + "/" + commitRef, Client.NoBody)
    ensures Iter(c) == Client.Call(Client.Get, Base(c), Client.NoBody)
  {
    assert Get(c, commitRef).uri == Base(c) + "/" + commitRef;
  }

  /** `UserStamp`: name, email and date, all required. */
  const UserStampKind := KRec([Req("name", KStr), Req("email", KStr), Req("date", KStr)])

  /** `CommitRef`: url and sha, both required. */
  const CommitRefKind := KRec([Req("url", KStr), Req("sha", KStr)])

  /** `CommitDetails`: only the committer's stamp may be missing. */
  const CommitDetailsKind := KRec([
    Req("url", KStr), Req("author", UserStampKind), Opt("committer", UserStampKind), Req("message", KStr),
    Req("tree", CommitRefKind), Req("comment_count", U64)])

  /** `RepoCommit`: the author and committer are GitHub users, and the parents a list of refs. */
  const RepoCommitKind := KRec([
    Req("url", KStr), Req("sha", KStr), Req("html_url", KStr), Req("comments_url", KStr),
    Req("commit", CommitDetailsKind), Req("author", Users.UserKind), Req("committer", Users.UserKind),
    Req("parents", KList(CommitRefKind))])

  /** Of the commit records, only the details' committer is an `Option`. */
  lemma CommitOptionalExactly()
    ensures OptionalExactly(RepoCommitKind, {}) && OptionalExactly(CommitDetailsKind, {"committer"})
    ensures OptionalExactly(CommitRefKind, {}) && OptionalExactly(UserStampKind, {})
  {
  }

  /** Commit details missing the committer, or giving it as `null`, read it as `None`; details
      missing any other field do not decode. */
  lemma CommitDetailsFields(entries: seq<(string, JValue)>, n: nat)
    requires n < |CommitDetailsKind.fields|
    ensures CommitDetailsKind.fields[n].wire !in Keys(entries) && n != 2 ==> Decode(CommitDetailsKind, JObj(entries)).Err?
    ensures n == 2 && ("committer" !in Keys(entries) || Occurrences(entries, "committer") == Once(JNull)) ==>
      Decode(CommitDetailsKind, JObj(entries)).Ok? ==> Decode(CommitDetailsKind, JObj(entries)).value.slots[2] == None
  {
    if CommitDetailsKind.fields[n].wire !in Keys(entries) {
      AbsentField(CommitDetailsKind, entries, n);
    } else if n == 2 && Occurrences(entries, "committer") == Once(JNull) {
      NullField(CommitDetailsKind, entries, 2);
    }
  }

  /** A commit missing any field, the author, the committer or the parents included, does not
      decode. */
  lemma RepoCommitRequired(entries: seq<(string, JValue)>, n: nat)
    requires n < |RepoCommitKind.fields| && RepoCommitKind.fields[n].wire !in Keys(entries)
    ensures Decode(RepoCommitKind, JObj(entries)).Err?
  {
    AbsentField(RepoCommitKind, entries, n);
  }

  /** A ref or a stamp missing any field does not decode. */
  lemma RefStampRequired(entries: seq<(string, JValue)>, n: nat)
    ensures n < 2 && CommitRefKind.fields[n].wire !in Keys(entries) ==> Decode(CommitRefKind, JObj(entries)).Err?
    ensures n < 3 && UserStampKind.fields[n].wire !in Keys(entries) ==> Decode(UserStampKind, JObj(entries)).Err?
  {
    if n < 2 && CommitRefKind.fields[n].wire !in Keys(entries) { AbsentField(CommitRefKind, entries, n); }
    if n < 3 && UserStampKind.fields[n].wire !in Keys(entries) { AbsentField(UserStampKind, entries, n); }
  }

  /** A comment count that is negative or does not fit 64 bits fails the details. */
  lemma CommentCountRange(entries: seq<(string, JValue)>, count: int)
    requires Occurrences(entries, "comment_count") == Once(JInt(count))
    requires count < 0 || count >= 0x1_0000_0000_0000_0000
    ensures Decode(CommitDetailsKind, JObj(entries)).Err?
  {
    DecodeSlotCases(CommitDetailsKind.fields[5], entries);
    DecodeRecord(CommitDetailsKind, entries);
  }

  /** The parents decode exactly when every parent ref does. */
  lemma ParentsEach(items: seq<JValue>)
    ensures DecodeItems(KList(CommitRefKind), items).Ok? <==>
      forall n :: 0 <= n < |items| ==> Decode(CommitRefKind, items[n]).Ok?
  {
    DecodeItemsEach(KList(CommitRefKind), items);
  }
}
