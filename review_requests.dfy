/** Review requests of a pull request: reading, adding and removing the requested reviewers,
    with the options naming them and the record listing them. */
module ReviewRequests {
  import opened Wrappers
  import opened Json
  import opened Schema
  import Text
  import Client
  import Users
  import Teams

  /** `ReviewRequests`: the review requests of one pull request. */
  datatype ReviewRequestsApi = ReviewRequestsApi(owner: string, repo: string, number: Uint64)

  /** `path`: the pull request's requested reviewers. */
  function Path(r: ReviewRequestsApi): string {
    "/repos/" + r.owner + "/" + r.repo + "/pulls/" + Text.NatToString(r.number) + "/requested_reviewers"
  }

  function Get(r: ReviewRequestsApi): (req: Client.Call)
    ensures req == Client.Call(Client.Get, "/repos/" + r.owner + "/" + r.repo + "/pulls/" + Text.NatToString(r.number) + "/requested_reviewers", Client.NoBody)
  {
    Client.GetCall(Path(r))
  }

  /** `create`: posts the options. */
  function Create(r: ReviewRequestsApi, o: ReviewRequestOptions): (req: Client.Call)
    ensures req == Client.Call(Client.Post, "/repos/" + r.owner + "/" + r.repo + "/pulls/" + Text.NatToString(r.number) + "/requested_reviewers", Client.JsonBody(ReviewRequestOptionsJson(o)))
  {
    Client.PostCall(Path(r), ReviewRequestOptionsJson(o))
  }

  /** `delete`: a DELETE that carries the options as its body. */
  function Delete(r: ReviewRequestsApi, o: ReviewRequestOptions): (req: Client.Call)
    ensures req == Client.Call(Client.Delete, "/repos/" + r.owner + "/" + r.repo + "/pulls/" + Text.NatToString(r.number) + "/requested_reviewers", Client.JsonBody(ReviewRequestOptionsJson(o)))
  {
    Client.Call(Client.Delete, Path(r), Client.JsonBody(ReviewRequestOptionsJson(o)))
  }

  /** Reading, adding and removing all use the one path; adding and removing send the same
      body and differ only in the verb. */
  lemma ReviewRequestCalls(r: ReviewRequestsApi, o: ReviewRequestOptions)
    ensures Get(r).uri == Create(r, o).uri == Delete(r, o).uri ==
      "/repos/" + r.owner + "/" + r.repo + "/pulls/" + Text.NatToString(r.number) + "/requested_reviewers"
    ensures Get(r).verb == Client.Get && Create(r, o).verb == Client.Post && Delete(r, o).verb == Client.Delete
    ensures Create(r, o).body == Delete(r, o).body == Client.JsonBody(ReviewRequestOptionsJson(o))
  {
  }

  /** `ReviewRequestOptions`: the logins and team slugs to request, both always written. */
  datatype ReviewRequestOptions = ReviewRequestOptions(reviewers: seq<string>, teamReviewers: seq<string>)

  /** `Default`: nobody requested. */
  function DefaultOptions(): (o: ReviewRequestOptions)
    ensures |o.reviewers| == 0 && |o.teamReviewers| == 0
  {
    ReviewRequestOptions([], [])
  }

  const ReviewRequestOptionsKind := KRec([Req("reviewers", KList(KStr)), Req("team_reviewers", KList(KStr))])

  function ReviewRequestOptionsVal(o: ReviewRequestOptions): (v: Val)
    ensures Conforms(ReviewRequestOptionsKind, v)
  {
    VRec([Some(StrListVal(o.reviewers)), Some(StrListVal(o.teamReviewers))])
  }

  function ReviewRequestOptionsOf(v: Val): ReviewRequestOptions {
    if v.VRec? && |v.slots| == 2 then ReviewRequestOptions(StrListOf(v.slots[0]), StrListOf(v.slots[1]))
    else ReviewRequestOptions([], [])
  }

  /** `json!(review_request)`. */
  function ReviewRequestOptionsJson(o: ReviewRequestOptions): JValue {
    Encode(ReviewRequestOptionsKind, ReviewRequestOptionsVal(o))
  }

  /** Both lists are always written, as arrays of strings in order, even when empty. */
  lemma ReviewRequestOptionsJsonFields(o: ReviewRequestOptions)
    ensures ReviewRequestOptionsJson(o) ==
      JObj([("reviewers", JArr(JStrs(o.reviewers)))] + [("team_reviewers", JArr(JStrs(o.teamReviewers)))])
  {
    var k, v := ReviewRequestOptionsKind, ReviewRequestOptionsVal(o);
    EncodeStrList(o.reviewers);
    EncodeStrList(o.teamReviewers);
    EncodeTwo(k, v.slots, [("reviewers", JArr(JStrs(o.reviewers)))], [("team_reviewers", JArr(JStrs(o.teamReviewers)))]);
  }

  /** The default options ask for nobody, with both keys present. */
  lemma DefaultOptionsJson()
    ensures ReviewRequestOptionsJson(DefaultOptions()) == JObj([("reviewers", JArr([])), ("team_reviewers", JArr([]))])
  {
    ReviewRequestOptionsJsonFields(DefaultOptions());
  }

  /** What a server reads back from the body is the reviewers and teams that were sent. */
  lemma ReviewRequestOptionsRoundTrip(o: ReviewRequestOptions)
    ensures Decode(ReviewRequestOptionsKind, ReviewRequestOptionsJson(o)).Ok?
    ensures ReviewRequestOptionsOf(Decode(ReviewRequestOptionsKind, ReviewRequestOptionsJson(o)).value) == o
  {
    RoundTrip(ReviewRequestOptionsKind, ReviewRequestOptionsVal(o));
    StrsOfList(o.reviewers);
    StrsOfList(o.teamReviewers);
  }

  /** `ReviewRequest`: the requested users and teams, both required. */
  const ReviewRequestKind := KRec([Req("users", KList(Users.UserKind)), Req("teams", KList(Teams.TeamKind))])

  /** A review request missing either list does not decode. */
  lemma ReviewRequestRequired(entries: seq<(string, JValue)>, n: nat)
    requires n < 2 && ReviewRequestKind.fields[n].wire !in Keys(entries)
    ensures Decode(ReviewRequestKind, JObj(entries)).Err?
  {
    AbsentField(ReviewRequestKind, entries, n);
  }
}
