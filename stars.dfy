/** Stars: whether the authenticated user has starred a repository, starring and unstarring
    it, and the repositories a user has starred. */
module Stars {
  import opened Wrappers
  import opened Json
  import opened Errors
  import Client
  import Rep

  /** The uri of one repository among the authenticated user's stars. */
  function StarredPath(owner: string, repo: string): string {
    "/user/starred/" + owner + "/" + repo
  }

  /** The request `is_starred` makes. */
  function IsStarredCall(owner: string, repo: string): (req: Client.Call)
    ensures req == Client.Call(Client.Get, "/user/starred/" + owner + "/" + repo, Client.NoBody)
  {
    Client.GetCall(StarredPath(owner, repo))
  }

  /** `star`: a PUT with an empty body. */
  function Star(owner: string, repo: string): (req: Client.Call)
    ensures req == Client.Call(Client.Put, "/user/starred/" + owner + "/" + repo, Client.EmptyBody)
  {
    Client.Call(Client.Put, StarredPath(owner, repo), Client.EmptyBody)
  }

  /** `unstar`. */
  function Unstar(owner: string, repo: string): (req: Client.Call)
    ensures req == Client.Call(Client.Delete, "/user/starred/" + owner + "/" + repo, Client.NoBody)
  {
    Client.DeleteCall(StarredPath(owner, repo))
  }

  /** `list`: one page of the user's starred repositories. */
  function List(username: string): (req: Client.Call)
    ensures req == Client.Call(Client.Get, "/users/" + username + "/starred", Client.NoBody)
  {
    Client.GetCall("/users/" + username + "/starred")
  }

  /** `iter`: the first request of the stream over every page. */
  function Iter(username: string): (req: Client.Call)
    ensures req == Client.Call(Client.Get, "/users/" + username + "/starred", Client.NoBody)
  {
    Client.GetCall("/users/" + username + "/starred")
  }

  /** Asking, starring and unstarring address the repository below the authenticated user's
      stars; a user's stars are listed below that user. */
  lemma StarCalls(owner: string, repo: string, username: string)
    ensures IsStarredCall(owner, repo).uri == Star(owner, repo).uri == Unstar(owner, repo).uri ==
      "/user/starred/" + owner + "/" + repo
    ensures IsStarredCall(owner, repo).verb == Client.Get
    ensures Star(owner, repo).verb == Client.Put && Star(owner, repo).body == Client.EmptyBody
    ensures Unstar(owner, repo).verb == Client.Delete
    ensures List(username) == Iter(username) == Client.Call(Client.Get, "/users/" + username + "/starred", Client.NoBody)
  {
  }

  /** The answer `is_starred` makes of what reading `()` gave: a success is true, a Not Found
      fault is false, a body that does not read as `()` is true, and every other error is
      passed on. */
  function IsStarredOutcome(r: Result<(), Error>): (answer: Result<bool, Error>)
    ensures r.Ok? ==> answer == Ok(true)
    ensures r.Err? && r.error.Fault? && r.error.code == 404 ==> answer == Ok(false)
    ensures r.Err? && r.error.Codec? ==> answer == Ok(true)
    ensures r.Err? && !r.error.Codec? && !(r.error.Fault? && r.error.code == 404) ==> answer == Err(r.error)
  {
    match r
    case Ok(_) => Ok(true)
    case Err(Fault(404, _)) => Ok(false)
    case Err(Codec(_)) => Ok(true)
    case Err(other) => Err(other)
  }

  /** `is_starred`, from the reply to its request. */
  function IsStarred(reply: Result<Client.Response, Error>): (answer: Result<bool, Error>)
    ensures answer == Ok(false) <==>
      (reply.Ok? && reply.value.status == 404 && Client.ReadBody(reply.value.body, Rep.DecodeClientError).Ok?) ||
      (reply.Err? && reply.error.Fault? && reply.error.code == 404)
    ensures answer.Err? <==>
      (reply.Ok? && Client.IsClientFault(reply.value.status) && reply.value.status != 404 &&
       Client.ReadBody(reply.value.body, Rep.DecodeClientError).Ok?) ||
      (reply.Err? && !reply.error.Codec? && !(reply.error.Fault? && reply.error.code == 404))
    ensures answer.Err? && reply.Err? ==> answer.error == reply.error
  {
    IsStarredOutcome(Client.Respond(reply, Client.DecodeUnit))
  }

  /** Any reply whose status is not a client fault answers true, whatever its body; a Not
      Found answers false when its body reads as a `ClientError` and true when it does not;
      another client fault is passed on when its body reads as a `ClientError`; transport
      errors are passed on. */
  lemma IsStarredAnswers(reply: Result<Client.Response, Error>)
    ensures reply.Ok? && !Client.IsClientFault(reply.value.status) ==> IsStarred(reply) == Ok(true)
    ensures reply.Ok? && reply.value.status == 404 ==>
      IsStarred(reply) == (if Client.ReadBody(reply.value.body, Rep.DecodeClientError).Ok? then Ok(false) else Ok(true))
    ensures reply.Ok? && Client.IsClientFault(reply.value.status) && reply.value.status != 404 ==>
      (IsStarred(reply).Err? <==> Client.ReadBody(reply.value.body, Rep.DecodeClientError).Ok?)
    ensures reply.Err? && !reply.error.Codec? && !reply.error.Fault? ==> IsStarred(reply) == Err(reply.error)
  {
  }

  /** The answer is false only for a Not Found whose body reads as a `ClientError`. */
  lemma IsStarredFalse(reply: Result<Client.Response, Error>)
    requires reply.Ok?
    ensures IsStarred(reply) == Ok(false) <==>
      reply.value.status == 404 && Client.ReadBody(reply.value.body, Rep.DecodeClientError).Ok?
  {
  }
}
