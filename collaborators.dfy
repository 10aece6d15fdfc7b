/** Collaborators of a repository: listing them, asking whether a user is one, adding one with
    a permission and removing one. */
module Collaborators {
  import opened Wrappers
  import opened Json
  import opened Errors
  import Client
  import Rep

  /** `Permissions`: what a collaborator may do. */
  datatype Permissions = Admin | Push | Pull

  /** `Permissions::default()`. */
  function DefaultPermissions(): (p: Permissions)
    ensures PermissionsText(p) == "push"
  {
    Push
  }

  /** `Display for Permissions`. */
  function PermissionsText(p: Permissions): string {
    match p
    case Admin => "admin"
    case Push => "push"
    case Pull => "pull"
  }

  /** The three permissions are written differently, so the text names the permission. */
  lemma PermissionsTextDistinct(p: Permissions, q: Permissions)
    ensures PermissionsText(p) == PermissionsText(q) <==> p == q
    ensures PermissionsText(p) in ["admin", "push", "pull"]
  {
  }

  /** `Collaborators`: the collaborators of one repository. */
  datatype CollaboratorsApi = CollaboratorsApi(owner: string, repo: string)

  /** `path`: the repository's collaborators, with `more` after. */
  function Path(c: CollaboratorsApi, more: string): string {
    "/repos/" + c.owner + "/" + c.repo + "/collaborators" + more
  }

  function List(c: CollaboratorsApi): (req: Client.Call)
    ensures req == Client.Call(Client.Get, "/repos/" + c.owner + "/" + c.repo + "/collaborators", Client.NoBody)
  {
    Client.GetCall(Path(c, ""))
  }

  /** The request `is_collaborator` makes. */
  function IsCollaboratorCall(c: CollaboratorsApi, username: string): (req: Client.Call)
    ensures req == Client.Call(Client.Get, "/repos/" + c.owner + "/" + c.repo + "/collaborators/" + username, Client.NoBody)
  {
    Client.GetCall(Path(c, "/" + username))
  }

  /** The body of `add`: a map of the one key "permission" to the permission's text. */
  function PermissionBody(p: Permissions): JValue {
    JObj([("permission", JStr(PermissionsText(p)))])
  }

  /** `add`: puts the permission to the user's uri. */
  function Add(c: CollaboratorsApi, username: string, p: Permissions): (req: Client.Call)
    ensures req == Client.Call(Client.Put, "/repos/" + c.owner + "/" + c.repo + "/collaborators/" + username, Client.JsonBody(PermissionBody(p)))
  {
    Client.PutCall(Path(c, "/" + username), PermissionBody(p))
  }

  /** `remove`: deletes the user's uri. */
  function Remove(c: CollaboratorsApi, username: string): (req: Client.Call)
    ensures req == Client.Call(Client.Delete, "/repos/" + c.owner + "/" + c.repo + "/collaborators/" + username, Client.NoBody)
  {
    Client.DeleteCall(Path(c, "/" + username))
  }

  /** Listing reads the collaborators; asking, adding and removing all use the user's uri
      below them. */
  lemma CollaboratorCalls(c: CollaboratorsApi, username: string, p: Permissions)
    ensures List(c).uri == "/repos/" + c.owner + "/" + c.repo + "/collaborators"
    ensures IsCollaboratorCall(c, username).uri == Add(c, username, p).uri == Remove(c, username).uri ==
      List(c).uri + "/" + username
    ensures IsCollaboratorCall(c, username).verb == Client.Get && Remove(c, username).verb == Client.Delete
    ensures Add(c, username, p) ==
      Client.Call(Client.Put, List(c).uri + "/" + username, Client.JsonBody(JObj([("permission", JStr(PermissionsText(p)))])))
  {
  }

  /** The answer `is_collaborator` makes of what reading `()` gave: a success is true, a Not
      Found fault is false, and every other error is passed on. */
  function IsCollaboratorOutcome(r: Result<(), Error>): (answer: Result<bool, Error>)
    ensures r.Ok? ==> answer == Ok(true)
    ensures r.Err? && r.error.Fault? && r.error.code == 404 ==> answer == Ok(false)
    ensures r.Err? && !(r.error.Fault? && r.error.code == 404) ==> answer == Err(r.error)
  {
    match r
    case Ok(_) => Ok(true)
    case Err(Fault(404, _)) => Ok(false)
    case Err(other) => Err(other)
  }

  /** `is_collaborator`, from the reply to its request. */
  function IsCollaborator(reply: Result<Client.Response, Error>): (answer: Result<bool, Error>)
    ensures answer == Ok(false) <==>
      (reply.Ok? && reply.value.status == 404 && Client.ReadBody(reply.value.body, Rep.DecodeClientError).Ok?) ||
      (reply.Err? && reply.error.Fault? && reply.error.code == 404)
    ensures answer.Ok? <==>
      (reply.Ok? && !Client.IsClientFault(reply.value.status) && reply.value.body == Some(JNull)) ||
      (reply.Ok? && reply.value.status == 404 && Client.ReadBody(reply.value.body, Rep.DecodeClientError).Ok?) ||
      (reply.Err? && reply.error.Fault? && reply.error.code == 404)
    ensures reply.Err? && !(reply.error.Fault? && reply.error.code == 404) ==> answer == Err(reply.error)
  {
    IsCollaboratorOutcome(Client.Respond(reply, Client.DecodeUnit))
  }

  /** A user is reported a collaborator only on a reply whose status is not a client fault and
      whose body is `null`; a Not Found whose body reads as a `ClientError` reports false;
      a transport or read error is passed on. */
  lemma IsCollaboratorAnswers(reply: Result<Client.Response, Error>)
    ensures IsCollaborator(reply) == Ok(true) <==>
      reply.Ok? && !Client.IsClientFault(reply.value.status) && reply.value.body == Some(JNull)
    ensures reply.Ok? && reply.value.status == 404 ==>
      (IsCollaborator(reply) == Ok(false) <==> Client.ReadBody(reply.value.body, Rep.DecodeClientError).Ok?)
    ensures reply.Err? && !reply.error.Fault? ==> IsCollaborator(reply) == Err(reply.error)
  {
  }

  /** A collaborator is answered with a success and no content. `is_collaborator` reads that
      empty body as `()`, fails, and passes the syntax error on instead of answering true. */
  lemma IsCollaboratorNoContent()
    ensures IsCollaborator(Ok(Client.Response(204, None))) == Err(Codec(Syntax))
  {
  }

  /** The answer with a body that does not read as `()` taken as a success, as `is_starred`
      does for stars. */
  function IsCollaboratorOutcomeCorrected(r: Result<(), Error>): (answer: Result<bool, Error>)
    ensures r.Ok? || (r.Err? && r.error.Codec?) ==> answer == Ok(true)
    ensures r.Err? && r.error.Fault? && r.error.code == 404 ==> answer == Ok(false)
    ensures r.Err? && !r.error.Codec? && !(r.error.Fault? && r.error.code == 404) ==> answer == Err(r.error)
  {
    match r
    case Ok(_) => Ok(true)
    case Err(Codec(_)) => Ok(true)
    case Err(Fault(404, _)) => Ok(false)
    case Err(other) => Err(other)
  }

  function IsCollaboratorCorrected(reply: Result<Client.Response, Error>): (answer: Result<bool, Error>)
    ensures answer == Ok(false) <==>
      (reply.Ok? && reply.value.status == 404 && Client.ReadBody(reply.value.body, Rep.DecodeClientError).Ok?) ||
      (reply.Err? && reply.error.Fault? && reply.error.code == 404)
    ensures answer.Err? <==>
      (reply.Ok? && Client.IsClientFault(reply.value.status) && reply.value.status != 404 &&
       Client.ReadBody(reply.value.body, Rep.DecodeClientError).Ok?) ||
      (reply.Err? && !reply.error.Codec? && !(reply.error.Fault? && reply.error.code == 404))
    ensures answer.Err? && reply.Err? ==> answer.error == reply.error
  {
    IsCollaboratorOutcomeCorrected(Client.Respond(reply, Client.DecodeUnit))
  }

  /** With the correction, every reply whose status is not a client fault answers true,
      whatever its body, and a Not Found whose body reads as a `ClientError` answers false. */
  lemma IsCollaboratorCorrectedAnswers(reply: Result<Client.Response, Error>)
    ensures reply.Ok? && !Client.IsClientFault(reply.value.status) ==> IsCollaboratorCorrected(reply) == Ok(true)
    ensures reply.Ok? && reply.value.status == 404 && Client.ReadBody(reply.value.body, Rep.DecodeClientError).Ok? ==>
      IsCollaboratorCorrected(reply) == Ok(false)
    ensures IsCollaboratorCorrected(Ok(Client.Response(204, None))) == Ok(true)
  {
  }
}
