/** The client: the host and credentials requests go out with, the request each operation
    describes, and how a response's status and body become a result. */
module Client {
  import opened Wrappers
  import opened Json
  import opened Schema
  import opened Errors
  import Rep

  const DefaultHost := "https://api.github.com"

  /** `Github`: where requests go, the user agent they carry, and the token if one is set. */
  datatype Github = Github(host: string, agent: string, token: Option<string>)

  /** `Github::host`: a client for a custom location such as an enterprise installation. */
  function AtHost(host: string, agent: string, token: Option<string>): (g: Github)
    ensures g.host == host && g.agent == agent && g.token == token
  {
    Github(host, agent, token)
  }

  /** `Github::new`: a client for the public API. */
  function New(agent: string, token: Option<string>): (g: Github)
    ensures g == AtHost(DefaultHost, agent, token)
  {
    AtHost(DefaultHost, agent, token)
  }

  datatype Method = Get | Post | Patch | Put | Delete

  /** What a request carries: nothing, an empty byte string, or a JSON document. */
  datatype Body = NoBody | EmptyBody | JsonBody(json: JValue)

  /** A request as an operation describes it: its method, the URI relative to the host, and
      its body. */
  datatype Call = Call(verb: Method, uri: string, body: Body)

  datatype Header = Header(name: string, value: string)

  /** A request as it goes out on the wire. */
  datatype Outgoing = Outgoing(verb: Method, url: string, headers: seq<Header>, body: Body)

  /** The `Authorization` header value for a token. */
  function TokenAuthorization(token: string): string {
    "token " + token
  }

  /** The headers a request carries: the user agent always, the authorization exactly when
      the client holds a token. */
  function Headers(g: Github): (hs: seq<Header>)
    ensures |hs| >= 1 && hs[0] == Header("User-Agent", g.agent)
    ensures g.token.None? ==> |hs| == 1
    ensures g.token.Some? ==> hs == [Header("User-Agent", g.agent),
                                     Header("Authorization", TokenAuthorization(g.token.value))]
  {
    [Header("User-Agent", g.agent)] +
    (if g.token.Some? then [Header("Authorization", TokenAuthorization(g.token.value))] else [])
  }

  /** The first half of `Github::request`: the URL is the host followed by the URI. */
  function Prepare(g: Github, c: Call): (o: Outgoing)
    ensures |o.url| == |g.host| + |c.uri| && o.url[..|g.host|] == g.host && o.url[|g.host|..] == c.uri
    ensures o.verb == c.verb && o.body == c.body && o.headers == Headers(g)
  {
    Outgoing(c.verb, g.host + c.uri, Headers(g), c.body)
  }

  /** A client made by `New` sends every request to the public API. */
  lemma NewUsesDefaultHost(agent: string, token: Option<string>, c: Call)
    ensures Prepare(New(agent, token), c).url == "https://api.github.com" + c.uri
  {
  }

  /** Whether a header named `name` is among the headers. */
  predicate HasHeader(hs: seq<Header>, name: string) {
    exists i :: 0 <= i < |hs| && hs[i].name == name
  }

  /** A request is authorized exactly when the client holds a token. */
  lemma AuthorizedIffToken(g: Github, c: Call)
    ensures HasHeader(Prepare(g, c).headers, "Authorization") <==> g.token.Some?
  {
    var hs := Prepare(g, c).headers;
    if g.token.Some? {
      assert hs[1].name == "Authorization";
    } else {
      assert hs[0].name == "User-Agent";
      assert "User-Agent" != "Authorization";
    }
  }

  /** What came back: the status code and the body, `None` when it is not JSON text. */
  datatype Response = Response(status: nat, body: Option<JValue>)

  /** The statuses whose body `request` reads as a `ClientError`: Bad Request, Unauthorized,
      Forbidden, Not Found and Unprocessable Entity. */
  predicate IsClientFault(status: nat) {
    status == 400 || status == 401 || status == 403 || status == 404 || status == 422
  }

  /** Reading a body as JSON: not JSON text is a syntax error. */
  function ReadBody<D>(body: Option<JValue>, decode: JValue -> Result<D, DecodeError>): (r: Result<D, Error>)
    ensures body.None? ==> r == Err(Codec(Syntax))
    ensures body.Some? && decode(body.value).Err? ==> r == Err(Codec(Shape(decode(body.value).error)))
    ensures body.Some? && decode(body.value).Ok? ==> r == Ok(decode(body.value).value)
  {
    if body.None? then Err(Codec(Syntax))
    else
      match decode(body.value)
      case Ok(d) => Ok(d)
      case Err(e) => Err(Codec(Shape(e)))
  }

  /** The second half of `Github::request`: a transport or read failure passes through; a
      client-fault status becomes a `Fault` carrying the decoded `ClientError` (or the error
      decoding it gave); every other status, server errors included, is decoded as `D`. */
  function Respond<D>(reply: Result<Response, Error>, decode: JValue -> Result<D, DecodeError>): (r: Result<D, Error>)
    ensures reply.Err? ==> r == Err(reply.error)
    ensures reply.Ok? && IsClientFault(reply.value.status) ==>
      r.Err? && (r.error.Fault? <==> ReadBody(reply.value.body, Rep.DecodeClientError).Ok?)
    ensures reply.Ok? && IsClientFault(reply.value.status) && r.error.Fault? ==>
      r.error == Fault(reply.value.status, ReadBody(reply.value.body, Rep.DecodeClientError).value)
    ensures reply.Ok? && !IsClientFault(reply.value.status) ==> r == ReadBody(reply.value.body, decode)
  {
    match reply
    case Err(e) => Err(e)
    case Ok(Response(status, body)) =>
      if IsClientFault(status) then
        var error :- ReadBody(body, Rep.DecodeClientError);
        Err(Fault(status, error))
      else ReadBody(body, decode)
  }

  /** A client-fault status never yields a value, whatever the body: at worst the error is the
      codec's. */
  lemma FaultNeverSucceeds<D>(status: nat, body: Option<JValue>, decode: JValue -> Result<D, DecodeError>)
    requires IsClientFault(status)
    ensures Respond(Ok(Response(status, body)), decode).Err?
    ensures Respond(Ok(Response(status, body)), decode).error.Fault? ||
            Respond(Ok(Response(status, body)), decode).error.Codec?
  {
  }

  /** `GET uri`. */
  function GetCall(uri: string): (c: Call)
    ensures c.verb == Get && c.uri == uri && c.body == NoBody
  {
    Call(Get, uri, NoBody)
  }

  /** `DELETE uri`. */
  function DeleteCall(uri: string): (c: Call)
    ensures c.verb == Delete && c.uri == uri && c.body == NoBody
  {
    Call(Delete, uri, NoBody)
  }

  /** `POST`, `PATCH` and `PUT` with a JSON document. */
  function PostCall(uri: string, json: JValue): (c: Call)
    ensures c.verb == Post && c.uri == uri && c.body == JsonBody(json)
  {
    Call(Post, uri, JsonBody(json))
  }

  function PatchCall(uri: string, json: JValue): (c: Call)
    ensures c.verb == Patch && c.uri == uri && c.body == JsonBody(json)
  {
    Call(Patch, uri, JsonBody(json))
  }

  function PutCall(uri: string, json: JValue): (c: Call)
    ensures c.verb == Put && c.uri == uri && c.body == JsonBody(json)
  {
    Call(Put, uri, JsonBody(json))
  }

  /** The unit type `()` read from JSON: only `null`. */
  function DecodeUnit(j: JValue): (r: Result<(), DecodeError>)
    ensures r.Ok? <==> j == JNull
  {
    if j == JNull then Ok(()) else Err(InvalidType)
  }

  /** `delete`'s remapping: a body that does not read as `()` is still a success; every other
      outcome passes through unchanged. */
  function DeleteOutcome(r: Result<(), Error>): (d: Result<(), Error>)
    ensures r.Err? && r.error.Codec? ==> d == Ok(())
    ensures !(r.Err? && r.error.Codec?) ==> d == r
  {
    match r
    case Err(Codec(_)) => Ok(())
    case _ => r
  }

  /** The outcome of a `delete`: the empty body of a successful delete is a success, and so is
      a client fault whose body is not a `ClientError`. */
  function DeleteResult(reply: Result<Response, Error>): (r: Result<(), Error>)
    ensures reply.Ok? && !IsClientFault(reply.value.status) ==> r == Ok(())
    ensures reply.Err? && !reply.error.Codec? ==> r == Err(reply.error)
  {
    DeleteOutcome(Respond(reply, DecodeUnit))
  }

  /** A client fault reaches the caller of `delete` exactly when its body reads as a
      `ClientError`. */
  lemma DeleteFault(status: nat, body: Option<JValue>)
    requires IsClientFault(status)
    ensures DeleteResult(Ok(Response(status, body))).Err? <==>
      ReadBody(body, Rep.DecodeClientError).Ok?
  {
  }

  /** The state filter of issues and pull requests. */
  datatype State = Open | Closed | All

  /** `Display for State`. */
  function StateText(s: State): string {
    match s
    case Open => "open"
    case Closed => "closed"
    case All => "all"
  }

  /** The inverse of `StateText`. */
  function ParseState(t: string): (r: Option<State>)
    ensures forall s :: r == Some(s) <==> StateText(s) == t
  {
    match t
    case "open" => Some(Open)
    case "closed" => Some(Closed)
    case "all" => Some(All)
    case _ => None
  }

  /** `State::default()`. */
  function DefaultState(): (s: State)
    ensures StateText(s) == "open"
  {
    Open
  }

  datatype SortDirection = Asc | Desc

  /** `Display for SortDirection`. */
  function SortDirectionText(d: SortDirection): string {
    match d
    case Asc => "asc"
    case Desc => "desc"
  }

  function ParseSortDirection(t: string): (r: Option<SortDirection>)
    ensures forall d :: r == Some(d) <==> SortDirectionText(d) == t
  {
    match t
    case "asc" => Some(Asc)
    case "desc" => Some(Desc)
    case _ => None
  }

  /** `SortDirection::default()`. */
  function DefaultSortDirection(): (d: SortDirection)
    ensures SortDirectionText(d) == "asc"
  {
    Asc
  }
}
