/** Comments on an issue: creating one, listing them with their options and the options'
    builder, and the comment record. */
module Comments {
  import opened Wrappers
  import opened Json
  import opened Schema
  import Text
  import QueryParams
  import Client
  import Users

  /** `Comments`: the comments of one issue. */
  datatype CommentsApi = CommentsApi(owner: string, repo: string, number: Uint64)

  /** `path`: the issue's comments. */
  function Path(c: CommentsApi): string {
    "/repos/" + c.owner + "/" + c.repo + "/issues/" + Text.NatToString(c.number) + "/comments"
  }

  /** `CommentOptions`: the body of a new comment. */
  datatype CommentOptions = CommentOptions(body: string)

  const CommentOptionsKind := KRec([Req("body", KStr)])

  function CommentOptionsJson(o: CommentOptions): JValue {
    Encode(CommentOptionsKind, VRec([Some(VStr(o.body))]))
  }

  /** `create`: posts the options to the issue's comments. */
  function Create(c: CommentsApi, comment: CommentOptions): (req: Client.Call)
    ensures req == Client.Call(Client.Post, "/repos/" + c.owner + "/" + c.repo + "/issues/" + Text.NatToString(c.number) + "/comments", Client.JsonBody(CommentOptionsJson(comment)))
  {
    Client.PostCall(Path(c), CommentOptionsJson(comment))
  }

  /** A comment is created by posting `{"body": ...}` to the issue's comments. */
  lemma CreateCall(c: CommentsApi, comment: CommentOptions)
    ensures Create(c, comment) ==
      Client.Call(Client.Post, Path(c), Client.JsonBody(JObj([("body", JStr(comment.body))])))
  {
    EncodeOne(CommentOptionsKind, [Some(VStr(comment.body))], [("body", JStr(comment.body))]);
  }

  /** `list`: the path, then the serialized options pushed after it when any is set, joined
      by "?". */
  method List(c: CommentsApi, options: QueryParams.Params) returns (call: Client.Call)
    ensures call == Client.GetCall(QueryParams.WithQuery(Path(c), options))
  {
    var uri := [Path(c)];
    var query := QueryParams.Serialize(options);
    if query.Some? {
      uri := uri + [query.value];
      Text.JoinTwo(Path(c), query.value, "?");
    }
    call := Client.GetCall(Text.Join(uri, "?"));
  }

  /** Listing without options reads the bare path; with some, the path, '?' and the pairs. */
  lemma ListUri(c: CommentsApi, options: QueryParams.Params)
    ensures |options| == 0 ==> QueryParams.WithQuery(Path(c), options) == Path(c)
    ensures |options| > 0 ==> QueryParams.WithQuery(Path(c), options) == Path(c) + "?" + QueryParams.Serialize(options).value
  {
  }

  /** `CommentListOptionsBuilder`: the parameters set so far. */
  class CommentListOptionsBuilder {
    var params: QueryParams.Params

    predicate Valid()
      reads this
    {
      QueryParams.Valid(params)
    }

    /** `CommentListOptions::builder`: no option set. */
    constructor ()
      ensures Valid() && params == []
    {
      params := [];
    }

    /** `since`: the time as given, under "since". */
    method Since(since: string)
      requires Valid()
      modifies this
      ensures Valid() && params == QueryParams.Insert(old(params), "since", since)
    {
      params := QueryParams.Insert(params, "since", since);
    }

    /** `build`: the options hold a copy of the map. */
    function Build(): (options: QueryParams.Params)
      reads this
      ensures options == params
    {
      params
    }
  }

  /** Options left empty serialize to nothing; options with a date of digits and dashes as
      `since` serialize to "since=" and the date. */
  method SinceExample(c: CommentsApi) returns (empty: Option<string>, since: Option<string>)
    ensures empty == None
    ensures since == Some("since" + "=" + "2017-01-01")
  {
    var a := new CommentListOptionsBuilder();
    empty := QueryParams.Serialize(a.Build());
    var b := new CommentListOptionsBuilder();
    b.Since("2017-01-01");
    QueryParams.SerializeSafeOne("since", "2017-01-01");
    since := QueryParams.Serialize(b.Build());
  }

  /** `Comment`: every field required. */
  const CommentKind := KRec([
    Req("id", U64), Req("url", KStr), Req("html_url", KStr), Req("body", KStr), Req("user", Users.UserKind),
    Req("created_at", KStr), Req("updated_at", KStr)])

  /** A comment missing any field does not decode. */
  lemma CommentRequired(entries: seq<(string, JValue)>, n: nat)
    requires n < |CommentKind.fields| && CommentKind.fields[n].wire !in Keys(entries)
    ensures Decode(CommentKind, JObj(entries)).Err?
  {
    AbsentField(CommentKind, entries, n);
  }

  /** A comment whose id is negative or does not fit 64 bits does not decode. */
  lemma CommentIdRange(entries: seq<(string, JValue)>, id: int)
    requires Occurrences(entries, "id") == Once(JInt(id)) && (id < 0 || id >= 0x1_0000_0000_0000_0000)
    ensures Decode(CommentKind, JObj(entries)).Err?
  {
    DecodeSlotCases(CommentKind.fields[0], entries);
    DecodeRecord(CommentKind, entries);
  }
}
