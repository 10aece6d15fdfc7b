/** Review comments of a pull request: listing and creating them, with the options a comment
    is created with and the comment record. */
module ReviewComments {
  import opened Wrappers
  import opened Json
  import opened Schema
  import Text
  import Client
  import Users

  /** `ReviewComments`: the review comments of one pull request. */
  datatype ReviewCommentsApi = ReviewCommentsApi(owner: string, repo: string, number: Uint64)

  /** `path`: the pull request's comments. */
  function Path(r: ReviewCommentsApi): string {
    "/repos/" + r.owner + "/" + r.repo + "/pulls/" + Text.NatToString(r.number) + "/comments"
  }

  function List(r: ReviewCommentsApi): (req: Client.Call)
    ensures req == Client.Call(Client.Get, "/repos/" + r.owner + "/" + r.repo + "/pulls/" + Text.NatToString(r.number) + "/comments", Client.NoBody)
  {
    Client.GetCall(Path(r))
  }

  /** `create`: posts the options. */
  function Create(r: ReviewCommentsApi, o: ReviewCommentOptions): (req: Client.Call)
    ensures req == Client.Call(Client.Post, "/repos/" + r.owner + "/" + r.repo + "/pulls/" + Text.NatToString(r.number) + "/comments", Client.JsonBody(ReviewCommentOptionsJson(o)))
  {
    Client.PostCall(Path(r), ReviewCommentOptionsJson(o))
  }

  /** Listing and creating use the one path. */
  lemma ReviewCommentCalls(r: ReviewCommentsApi, o: ReviewCommentOptions)
    ensures List(r).uri == Create(r, o).uri ==
      "/repos/" + r.owner + "/" + r.repo + "/pulls/" + Text.NatToString(r.number) + "/comments"
    ensures List(r).verb == Client.Get && Create(r, o).verb == Client.Post
    ensures Create(r, o).body == Client.JsonBody(ReviewCommentOptionsJson(o))
  {
  }

  /** `ReviewCommentOptions`: the position is a `usize`, taken here as 64 bits wide. */
  datatype ReviewCommentOptions = ReviewCommentOptions(body: string, commitId: string, path: string, position: Uint64)

  /** `Default`: empty strings and position 0. */
  function DefaultOptions(): (o: ReviewCommentOptions)
    ensures o.body == "" && o.commitId == "" && o.path == "" && o.position == 0
  {
    ReviewCommentOptions("", "", "", 0)
  }

  const ReviewCommentOptionsKind := KRec([
    Req("body", KStr), Req("commit_id", KStr), Req("path", KStr), Req("position", U64)])

  function ReviewCommentOptionsVal(o: ReviewCommentOptions): (v: Val)
    ensures Conforms(ReviewCommentOptionsKind, v)
  {
    VRec([Some(VStr(o.body)), Some(VStr(o.commitId)), Some(VStr(o.path)), Some(VInt(o.position))])
  }

  function ReviewCommentOptionsOf(v: Val): ReviewCommentOptions {
    if v.VRec? && |v.slots| == 4 then
      ReviewCommentOptions(StrOf(v.slots[0]), StrOf(v.slots[1]), StrOf(v.slots[2]),
        if v.slots[3].Some? && v.slots[3].value.VInt? && 0 <= v.slots[3].value.i < 0x1_0000_0000_0000_0000 then v.slots[3].value.i else 0)
    else DefaultOptions()
  }

  /** `json!(review_comment)`. */
  function ReviewCommentOptionsJson(o: ReviewCommentOptions): JValue {
    Encode(ReviewCommentOptionsKind, ReviewCommentOptionsVal(o))
  }

  /** All four keys are always written, in declaration order, the empty strings and the zero
      position of the defaults included. */
  lemma ReviewCommentOptionsJsonFields(o: ReviewCommentOptions)
    ensures ReviewCommentOptionsJson(o) == JObj([("body", JStr(o.body))] + [("commit_id", JStr(o.commitId))] +
      [("path", JStr(o.path))] + [("position", JInt(o.position))])
  {
    var k, v := ReviewCommentOptionsKind, ReviewCommentOptionsVal(o);
    EncodeFour(k, v.slots, [("body", JStr(o.body))], [("commit_id", JStr(o.commitId))], [("path", JStr(o.path))],
      [("position", JInt(o.position))]);
  }

  /** What a server reads back from the body is the options that were sent. */
  lemma ReviewCommentOptionsRoundTrip(o: ReviewCommentOptions)
    ensures Decode(ReviewCommentOptionsKind, ReviewCommentOptionsJson(o)).Ok?
    ensures ReviewCommentOptionsOf(Decode(ReviewCommentOptionsKind, ReviewCommentOptionsJson(o)).value) == o
  {
    ReviewCommentOptionsWellFormed();
    RoundTrip(ReviewCommentOptionsKind, ReviewCommentOptionsVal(o));
  }

  lemma ReviewCommentOptionsWellFormed()
    ensures WellFormed(ReviewCommentOptionsKind)
  {
  }

  /** `ReviewComment`: every field required. */
  const ReviewCommentKind := KRec([
    Req("id", U64), Req("url", KStr), Req("diff_hunk", KStr), Req("path", KStr), Req("position", U64),
    Req("original_position", U64), Req("commit_id", KStr), Req("original_commit_id", KStr),
    Req("user", Users.UserKind), Req("body", KStr), Req("created_at", KStr), Req("updated_at", KStr),
    Req("html_url", KStr), Req("pull_request_url", KStr)])

  /** A review comment missing any field does not decode. */
  lemma ReviewCommentRequired(entries: seq<(string, JValue)>, n: nat)
    requires n < |ReviewCommentKind.fields| && ReviewCommentKind.fields[n].wire !in Keys(entries)
    ensures Decode(ReviewCommentKind, JObj(entries)).Err?
  {
    AbsentField(ReviewCommentKind, entries, n);
  }

  /** A position that is negative or does not fit 64 bits fails the comment. */
  lemma PositionRange(entries: seq<(string, JValue)>, position: int)
    requires Occurrences(entries, "position") == Once(JInt(position))
    requires position < 0 || position >= 0x1_0000_0000_0000_0000
    ensures Decode(ReviewCommentKind, JObj(entries)).Err?
  {
    DecodeSlotCases(ReviewCommentKind.fields[4], entries);
    DecodeRecord(ReviewCommentKind, entries);
  }
}
