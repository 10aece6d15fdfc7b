/** Membership of an organization: the stream of its pending invitations and the invitation
    record. */
module Membership {
  import opened Wrappers
  import opened Json
  import opened Schema
  import Client
  import Users

  /** `OrgMembership`: the membership operations of one organization. */
  datatype OrgMembership = OrgMembership(org: string)

  /** `invitations`: the first request of the stream over every page. */
  function Invitations(m: OrgMembership): (req: Client.Call)
    ensures req == Client.Call(Client.Get, "/orgs/" + m.org + "/invitations", Client.NoBody)
  {
    Client.GetCall("/orgs/" + m.org + "/invitations")
  }

  /** The invitations are read below the organization. */
  lemma InvitationsCall(m: OrgMembership)
    ensures Invitations(m) == Client.Call(Client.Get, "/orgs/" + m.org + "/invitations", Client.NoBody)
  {
  }

  /** `InvitedRole`, written in snake case. */
  datatype InvitedRole = DirectMember | Admin | BillingManager | HiringManager | Reinstate

  function InvitedRoleTag(r: InvitedRole): string {
    match r
    case DirectMember => "direct_member"
    case Admin => "admin"
    case BillingManager => "billing_manager"
    case HiringManager => "hiring_manager"
    case Reinstate => "reinstate"
  }

  const InvitedRoleTags := ["direct_member", "admin", "billing_manager", "hiring_manager", "reinstate"]

  /** Reading a role from its tag; there is no fallback variant. */
  function ParseInvitedRole(t: string): (r: Option<InvitedRole>)
    ensures forall role :: r == Some(role) <==> InvitedRoleTag(role) == t
    ensures r.Some? <==> t in InvitedRoleTags
  {
    match t
    case "direct_member" => Some(DirectMember)
    case "admin" => Some(Admin)
    case "billing_manager" => Some(BillingManager)
    case "hiring_manager" => Some(HiringManager)
    case "reinstate" => Some(Reinstate)
    case _ => None
  }

  const InvitedRoleKind := KTag(InvitedRoleTags)

  /** The role reads exactly its five tags; any other string is an unknown variant. */
  lemma InvitedRoleDecode(t: string)
    ensures Decode(InvitedRoleKind, JStr(t)) ==
      if ParseInvitedRole(t).Some? then Ok(VTag(t)) else Err(UnknownVariant(t))
  {
  }

  /** `Invitation`: the login, the email and the team count may be missing. */
  const InvitationKind := KRec([
    Req("id", U64), Opt("login", KStr), Opt("email", KStr), Req("role", InvitedRoleKind),
    Req("created_at", KStr), Req("inviter", Users.UserKind), Opt("team_count", U64)])

  /** Of an invitation's fields, login, email and team_count are `Option`s. */
  lemma InvitationOptionalExactly()
    ensures OptionalExactly(InvitationKind, {"login", "email", "team_count"})
  {
  }

  /** An invitation missing login, email or team_count reads them as `None`; one missing id,
      role, created_at or inviter does not decode. */
  lemma InvitationFields(entries: seq<(string, JValue)>, n: nat)
    requires n < |InvitationKind.fields| && InvitationKind.fields[n].wire !in Keys(entries)
    ensures n !in {1, 2, 6} ==> Decode(InvitationKind, JObj(entries)).Err?
    ensures n in {1, 2, 6} && Decode(InvitationKind, JObj(entries)).Ok? ==>
      Decode(InvitationKind, JObj(entries)).value.slots[n] == None
  {
    AbsentField(InvitationKind, entries, n);
  }

  /** An invitation whose role is not one of the five tags does not decode at all. */
  lemma InvitationUnknownRole(entries: seq<(string, JValue)>, t: string)
    requires Occurrences(entries, "role") == Once(JStr(t)) && t !in InvitedRoleTags
    ensures Decode(InvitationKind, JObj(entries)).Err?
  {
    DecodeSlotCases(InvitationKind.fields[3], entries);
    DecodeRecord(InvitationKind, entries);
  }
}
