/** Commit statuses: the create, list and combined requests, the status record, and the state
    codec. The state enum and the options body are the ones `Rep` declares, which this module
    repeats field for field. */
module Statuses {
  import opened Wrappers
  import opened Json
  import opened Schema
  import opened Errors
  import Client
  import Users
  import Rep

  /** `Statuses`: the statuses of one repository's commits. */
  datatype StatusesApi = StatusesApi(owner: string, repo: string)

  function Path(s: StatusesApi, more: string): string {
    "/repos/" + s.owner + "/" + s.repo + "/statuses" + more
  }

  /** `create`: posts the options for one sha. */
  function Create(s: StatusesApi, sha: string, o: Rep.StatusOptions): (req: Client.Call)
    ensures req == Client.Call(Client.Post, "/repos/" + s.owner + "/" + s.repo + "/statuses/" + sha, Client.JsonBody(Rep.StatusOptionsJson(o)))
  {
    Client.PostCall(Path(s, "/" + sha), Rep.StatusOptionsJson(o))
  }

  /** `list`: the statuses of one sha, below the commit rather than below "statuses". */
  function List(s: StatusesApi, sha: string): (req: Client.Call)
    ensures req == Client.Call(Client.Get, "/repos/" + s.owner + "/" + s.repo + "/commits/" + sha + "/statuses", Client.NoBody)
  {
    Client.GetCall("/repos/" + s.owner + "/" + s.repo + "/commits/" + sha + "/statuses")
  }

  /** `combined`: the combined status of one sha. */
  function Combined(s: StatusesApi, sha: string): (req: Client.Call)
    ensures req == Client.Call(Client.Get, "/repos/" + s.owner + "/" + s.repo + "/commits/" + sha + "/status", Client.NoBody)
  {
    Client.GetCall("/repos/" + s.owner + "/" + s.repo + "/commits/" + sha + "/status")
  }

  /** Reading a `String` from JSON: only a JSON string reads, as itself. */
  function DecodeString(j: JValue): (r: Result<string, DecodeError>)
    ensures r.Ok? <==> j.JStr?
    ensures r.Ok? ==> j == JStr(r.value)
    ensures r.Err? ==> r.error == InvalidType
  {
    if j.JStr? then Ok(j.s) else Err(InvalidType)
  }

  /** What `combined` makes of the reply: its body is read as a `String`. */
  function CombinedResult(reply: Result<Client.Response, Error>): (r: Result<string, Error>)
    ensures reply.Err? ==> r == Err(reply.error)
    ensures reply.Ok? && !Client.IsClientFault(reply.value.status) ==>
      (r.Ok? <==> reply.value.body.Some? && reply.value.body.value.JStr?)
    ensures r.Ok? ==> reply.Ok? && reply.value.body == Some(JStr(r.value))
  {
    Client.Respond(reply, DecodeString)
  }

  /** The combined status GitHub sends is an object, which does not read as a `String`: the
      call ends in a codec error, whatever the object holds. */
  lemma CombinedObjectFails(status: nat, entries: seq<(string, JValue)>)
    requires !Client.IsClientFault(status)
    ensures CombinedResult(Ok(Client.Response(status, Some(JObj(entries))))) == Err(Codec(Shape(InvalidType)))
  {
  }

  /** A status is created below the repository's "statuses" and listed below the commit; the
      list and the combined status differ only in the final "es". */
  lemma StatusPaths(s: StatusesApi, sha: string, o: Rep.StatusOptions)
    ensures Create(s, sha, o).uri == "/repos/" + s.owner + "/" + s.repo + "/statuses/" + sha
    ensures Create(s, sha, o).verb == Client.Post && List(s, sha).verb == Client.Get
    ensures List(s, sha).uri == Combined(s, sha).uri + "es"
    ensures Create(s, sha, o).body == Client.JsonBody(Rep.StatusOptionsJson(o))
  {
  }

  const StateKind := KTag(Rep.StatusStateTags)

  /** Reading a `State` from JSON: only the four tags are accepted. */
  function DecodeState(j: JValue): (r: Result<Rep.StatusState, DecodeError>)
    ensures r.Ok? <==> j.JStr? && j.s in Rep.StatusStateTags
    ensures r.Ok? ==> Rep.StatusStateTag(r.value) == j.s
    ensures j.JStr? && r.Err? ==> r.error == UnknownVariant(j.s)
  {
    match Decode(StateKind, j)
    case Ok(v) => if v.VTag? && Rep.ParseStatusState(v.tag).Some? then Ok(Rep.ParseStatusState(v.tag).value)
                  else Err(InvalidValue)
    case Err(e) => Err(e)
  }

  /** Writing a `State` as JSON. */
  function EncodeState(s: Rep.StatusState): JValue {
    Encode(StateKind, VTag(Rep.StatusStateTag(s)))
  }

  /** Decoding undoes encoding on each of the four states, and each is written as its tag. */
  lemma StateRoundTrip(s: Rep.StatusState)
    ensures EncodeState(s) == JStr(Rep.StatusStateTag(s))
    ensures DecodeState(EncodeState(s)) == Ok(s)
  {
    assert Rep.StatusStateTag(s) in Rep.StatusStateTags;
  }

  /** The four bodies of the status request examples, each built through the builder. */
  method StatusRequestExamples() returns (pending: JValue, success: JValue, error: JValue, failure: JValue)
    ensures pending == JObj([("state", JStr("pending"))])
    ensures success == JObj([("state", JStr("success")), ("target_url", JStr("http://acme.com"))])
    ensures error == JObj([("state", JStr("error")), ("description", JStr("desc"))])
    ensures failure == JObj([("state", JStr("failure")), ("target_url", JStr("http://acme.com")),
      ("description", JStr("desc"))])
  {
    var a := new Rep.StatusBuilder(Rep.Pending);
    pending := Rep.StatusOptionsJson(a.Build());
    Rep.StatusOptionsJsonFields(a.Build());
    var b := new Rep.StatusBuilder(Rep.Success);
    b.SetTargetUrl("http://acme.com");
    success := Rep.StatusOptionsJson(b.Build());
    Rep.StatusOptionsJsonFields(b.Build());
    var c := new Rep.StatusBuilder(Rep.Error);
    c.SetDescription("desc");
    error := Rep.StatusOptionsJson(c.Build());
    Rep.StatusOptionsJsonFields(c.Build());
    var d := new Rep.StatusBuilder(Rep.Failure);
    d.SetTargetUrl("http://acme.com");
    d.SetDescription("desc");
    failure := Rep.StatusOptionsJson(d.Build());
    Rep.StatusOptionsJsonFields(d.Build());
  }

  /** `Status`: every field required, the state one of the four tags. */
  const StatusKind := KRec([
    Req("created_at", KStr), Req("updated_at", KStr), Req("state", StateKind), Req("target_url", KStr),
    Req("description", KStr), Req("id", U64), Req("url", KStr), Req("context", KStr),
    Req("creator", Users.UserKind)])

  /** A status missing any field does not decode. */
  lemma StatusRequired(entries: seq<(string, JValue)>, n: nat)
    requires n < |StatusKind.fields| && StatusKind.fields[n].wire !in Keys(entries)
    ensures Decode(StatusKind, JObj(entries)).Err?
  {
    AbsentField(StatusKind, entries, n);
  }

  /** A status whose state is not one of the four tags does not decode: there is no fallback
      variant. */
  lemma StatusUnknownState(entries: seq<(string, JValue)>, t: string)
    requires Occurrences(entries, "state") == Once(JStr(t)) && t !in Rep.StatusStateTags
    ensures Decode(StatusKind, JObj(entries)).Err?
  {
    DecodeSlotCases(StatusKind.fields[2], entries);
    DecodeRecord(StatusKind, entries);
  }
}
