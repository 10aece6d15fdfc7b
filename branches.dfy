/** Branches of a repository: listing and reading them, updating a branch's protection and
    renaming a branch, with the protection records written and read by the derived codec. */
module Branches {
  import opened Wrappers
  import opened Json
  import opened Schema
  import Client

  /** `Branches`: the branches of one repository. */
  datatype BranchesApi = BranchesApi(owner: string, repo: string)

  /** The repository's branches, with `more` after. */
  function Path(b: BranchesApi, more: string): string {
    "/repos/" + b.owner + "/" + b.repo + "/branches" + more
  }

  function List(b: BranchesApi): (req: Client.Call)
    ensures req == Client.Call(Client.Get, "/repos/" + b.owner + "/" + b.repo + "/branches", Client.NoBody)
  {
    Client.GetCall(Path(b, ""))
  }

  /** `iter`: the first request of the stream over every page. */
  function Iter(b: BranchesApi): (req: Client.Call)
    ensures req == Client.Call(Client.Get, "/repos/" + b.owner + "/" + b.repo + "/branches", Client.NoBody)
  {
    Client.GetCall(Path(b, ""))
  }

  function Get(b: BranchesApi, branch: string): (req: Client.Call)
    ensures req == Client.Call(Client.Get, "/repos/" + b.owner + "/" + b.repo + "/branches/" + branch, Client.NoBody)
  {
    Client.GetCall(Path(b, "/" + branch))
  }

  /** `protection`: puts the protection, as JSON, below the branch. */
  function UpdateProtection(b: BranchesApi, branch: string, pro: Protection): (req: Client.Call)
    ensures req == Client.Call(Client.Put, "/repos/" + b.owner + "/" + b.repo + "/branches/" + branch + "/protection", Client.JsonBody(ProtectionJson(pro)))
  {
    Client.PutCall(Path(b, "/" + branch + "/protection"), ProtectionJson(pro))
  }

  /** `rename`: posts the new name below the branch. */
  function RenameBranch(b: BranchesApi, branch: string, rename: Rename): (req: Client.Call)
    ensures req == Client.Call(Client.Post, "/repos/" + b.owner + "/" + b.repo + "/branches/" + branch + "/rename", Client.JsonBody(RenameJson(rename)))
  {
    Client.PostCall(Path(b, "/" + branch + "/rename"), RenameJson(rename))
  }

  /** Listing and streaming read the same page; a branch is read at its name, and its
      protection and rename are below that. */
  lemma BranchCalls(b: BranchesApi, branch: string, pro: Protection, rename: Rename)
    ensures List(b) == Iter(b) == Client.Call(Client.Get, "/repos/" + b.owner + "/" + b.repo + "/branches", Client.NoBody)
    ensures Get(b, branch) == Client.Call(Client.Get, List(b).uri + "/" + branch, Client.NoBody)
    ensures UpdateProtection(b, branch, pro) ==
      Client.Call(Client.Put, Get(b, branch).uri + "/protection", Client.JsonBody(ProtectionJson(pro)))
    ensures RenameBranch(b, branch, rename) ==
      Client.Call(Client.Post, Get(b, branch).uri + "/rename", Client.JsonBody(RenameJson(rename)))
  {
    var base := "/repos/" + b.owner + "/" + b.repo + "/branches";
    assert Get(b, branch).uri == base + "/" + branch;
    assert UpdateProtection(b, branch, pro).uri == base + "/" + branch + "/protection";
    assert RenameBranch(b, branch, rename).uri == base + "/" + branch + "/rename";
  }

  /** The values of a Rust `u8`. */
  type Uint8 = x: nat | x < 0x100

  /** `StatusChecks`. */
  datatype StatusChecks = StatusChecks(strict: bool, contexts: seq<string>)

  const StatusChecksKind := KRec([Req("strict", KBool), Req("contexts", KList(KStr))])

  function StatusChecksVal(s: StatusChecks): (v: Val)
    ensures Conforms(StatusChecksKind, v)
  {
    VRec([Some(VBool(s.strict)), Some(StrListVal(s.contexts))])
  }

  function StatusChecksOf(v: Val): StatusChecks {
    if v.VRec? && |v.slots| == 2 then StatusChecks(BoolOf(v.slots[0]), StrListOf(v.slots[1]))
    else StatusChecks(false, [])
  }

  function StatusChecksJson(s: StatusChecks): JValue {
    Encode(StatusChecksKind, StatusChecksVal(s))
  }

  /** `Restrictions`: the users and teams allowed to push. */
  datatype Restrictions = Restrictions(users: seq<string>, teams: seq<string>)

  const RestrictionsKind := KRec([Req("users", KList(KStr)), Req("teams", KList(KStr))])

  function RestrictionsVal(r: Restrictions): (v: Val)
    ensures Conforms(RestrictionsKind, v)
  {
    VRec([Some(StrListVal(r.users)), Some(StrListVal(r.teams))])
  }

  function RestrictionsOf(v: Val): Restrictions {
    if v.VRec? && |v.slots| == 2 then Restrictions(StrListOf(v.slots[0]), StrListOf(v.slots[1]))
    else Restrictions([], [])
  }

  function RestrictionsJson(r: Restrictions): JValue {
    Encode(RestrictionsKind, RestrictionsVal(r))
  }

  /** `EnforceAdmins`. */
  datatype EnforceAdmins = EnforceAdmins(url: string, enabled: bool)

  const EnforceAdminsKind := KRec([Req("url", KStr), Req("enabled", KBool)])

  function EnforceAdminsVal(e: EnforceAdmins): (v: Val)
    ensures Conforms(EnforceAdminsKind, v)
  {
    VRec([Some(VStr(e.url)), Some(VBool(e.enabled))])
  }

  function EnforceAdminsOf(v: Val): EnforceAdmins {
    if v.VRec? && |v.slots| == 2 then EnforceAdmins(StrOf(v.slots[0]), BoolOf(v.slots[1]))
    else EnforceAdmins("", false)
  }

  /** `RequiredPullRequestReviews`: the dismissal restrictions are written only when set, and
      the approving review count is a `u8`. */
  datatype RequiredPullRequestReviews = RequiredPullRequestReviews(
    dismissalRestrictions: Option<Restrictions>,
    dismissStaleReviews: bool,
    requireCodeOwnerReviews: bool,
    requiredApprovingReviewCount: Uint8)

  const ReviewsKind := KRec([
    OptSkip("dismissal_restrictions", RestrictionsKind), Req("dismiss_stale_reviews", KBool),
    Req("require_code_owner_reviews", KBool), Req("required_approving_review_count", U8)])

  function ReviewsVal(r: RequiredPullRequestReviews): (v: Val)
    ensures Conforms(ReviewsKind, v)
  {
    VRec([RestrictionsSlot(r.dismissalRestrictions), Some(VBool(r.dismissStaleReviews)),
      Some(VBool(r.requireCodeOwnerReviews)), Some(VInt(r.requiredApprovingReviewCount))])
  }

  function ReviewsOf(v: Val): RequiredPullRequestReviews {
    if v.VRec? && |v.slots| == 4 then
      RequiredPullRequestReviews(
        if v.slots[0].Some? then Some(RestrictionsOf(v.slots[0].value)) else None,
        BoolOf(v.slots[1]), BoolOf(v.slots[2]),
        if v.slots[3].Some? && v.slots[3].value.VInt? && 0 <= v.slots[3].value.i < 0x100 then v.slots[3].value.i else 0)
    else RequiredPullRequestReviews(None, false, false, 0)
  }

  function ReviewsJson(r: RequiredPullRequestReviews): JValue {
    Encode(ReviewsKind, ReviewsVal(r))
  }

  /** `Protection`: none of its `Option` fields is skipped, so a `None` is written as
      `null`; `enforce_admins` is a plain boolean. */
  datatype Protection = Protection(
    requiredStatusChecks: Option<StatusChecks>,
    enforceAdmins: bool,
    requiredPullRequestReviews: Option<RequiredPullRequestReviews>,
    restrictions: Option<Restrictions>)

  const ProtectionKind := KRec([
    Opt("required_status_checks", StatusChecksKind), Req("enforce_admins", KBool),
    Opt("required_pull_request_reviews", ReviewsKind), Opt("restrictions", RestrictionsKind)])

  /** The slot of an `Option<StatusChecks>` field. */
  function StatusChecksSlot(s: Option<StatusChecks>): (slot: Option<Val>)
    ensures slot.Some? ==> Conforms(StatusChecksKind, slot.value) && slot.value.VRec?
  {
    if s.Some? then Some(StatusChecksVal(s.value)) else None
  }

  /** The slot of an `Option<Restrictions>` field. */
  function RestrictionsSlot(r: Option<Restrictions>): (slot: Option<Val>)
    ensures slot.Some? ==> Conforms(RestrictionsKind, slot.value) && slot.value.VRec?
  {
    if r.Some? then Some(RestrictionsVal(r.value)) else None
  }

  function ProtectionVal(p: Protection): (v: Val)
    ensures Conforms(ProtectionKind, v)
  {
    var reviews := if p.requiredPullRequestReviews.Some? then Some(ReviewsVal(p.requiredPullRequestReviews.value)) else None;
    assert SlotConforms(ProtectionKind.fields[2], reviews);
    VRec([StatusChecksSlot(p.requiredStatusChecks), Some(VBool(p.enforceAdmins)), reviews, RestrictionsSlot(p.restrictions)])
  }

  function ProtectionOf(v: Val): Protection {
    if v.VRec? && |v.slots| == 4 then
      Protection(
        if v.slots[0].Some? then Some(StatusChecksOf(v.slots[0].value)) else None,
        BoolOf(v.slots[1]),
        if v.slots[2].Some? then Some(ReviewsOf(v.slots[2].value)) else None,
        if v.slots[3].Some? then Some(RestrictionsOf(v.slots[3].value)) else None)
    else Protection(None, false, None, None)
  }

  /** `json!(pro)`: the body `protection` sends. */
  function ProtectionJson(p: Protection): JValue {
    Encode(ProtectionKind, ProtectionVal(p))
  }

  /** Reading a protection from JSON, as the derived `Deserialize` does. */
  function DecodeProtection(j: JValue): (r: Result<Protection, DecodeError>)
    ensures r.Ok? <==> Decode(ProtectionKind, j).Ok?
  {
    match Decode(ProtectionKind, j)
    case Ok(v) => Ok(ProtectionOf(v))
    case Err(e) => Err(e)
  }

  /** `ProtectionState`: what the protection update answers; both fields may be missing. */
  datatype ProtectionState = ProtectionState(
    requiredStatusChecks: Option<StatusChecks>,
    enforceAdmins: Option<EnforceAdmins>)

  const ProtectionStateKind := KRec([
    Opt("required_status_checks", StatusChecksKind), Opt("enforce_admins", EnforceAdminsKind)])

  function ProtectionStateVal(s: ProtectionState): (v: Val)
    ensures Conforms(ProtectionStateKind, v)
  {
    VRec([StatusChecksSlot(s.requiredStatusChecks),
      if s.enforceAdmins.Some? then Some(EnforceAdminsVal(s.enforceAdmins.value)) else None])
  }

  function ProtectionStateOf(v: Val): ProtectionState {
    if v.VRec? && |v.slots| == 2 then
      ProtectionState(
        if v.slots[0].Some? then Some(StatusChecksOf(v.slots[0].value)) else None,
        if v.slots[1].Some? then Some(EnforceAdminsOf(v.slots[1].value)) else None)
    else ProtectionState(None, None)
  }

  function ProtectionStateJson(s: ProtectionState): JValue {
    Encode(ProtectionStateKind, ProtectionStateVal(s))
  }

  function DecodeProtectionState(j: JValue): (r: Result<ProtectionState, DecodeError>)
    ensures r.Ok? <==> Decode(ProtectionStateKind, j).Ok?
  {
    match Decode(ProtectionStateKind, j)
    case Ok(v) => Ok(ProtectionStateOf(v))
    case Err(e) => Err(e)
  }

  /** `Rename`. */
  datatype Rename = Rename(newName: string)

  const RenameKind := KRec([Req("new_name", KStr)])

  function RenameJson(r: Rename): JValue {
    Encode(RenameKind, VRec([Some(VStr(r.newName))]))
  }

  /** `Branch`: only the name is required. */
  datatype Branch = Branch(name: string, protected: Option<bool>, protectionUrl: Option<string>)

  const BranchKind := KRec([Req("name", KStr), Opt("protected", KBool), Opt("protection_url", KStr)])

  function BranchOf(v: Val): Branch {
    if v.VRec? && |v.slots| == 3 then
      Branch(StrOf(v.slots[0]), if v.slots[1].Some? then Some(BoolOf(v.slots[1])) else None, OptStrOf(v.slots[2]))
    else Branch("", None, None)
  }

  function DecodeBranch(j: JValue): (r: Result<Branch, DecodeError>)
    ensures r.Ok? <==> Decode(BranchKind, j).Ok?
  {
    match Decode(BranchKind, j)
    case Ok(v) => Ok(BranchOf(v))
    case Err(e) => Err(e)
  }

  lemma LeafKindsWellFormed()
    ensures WellFormed(StatusChecksKind) && WellFormed(RestrictionsKind) && WellFormed(EnforceAdminsKind)
  {
  }

  lemma ReviewsWellFormed()
    ensures WellFormed(ReviewsKind)
  {
    LeafKindsWellFormed();
  }

  /** Field names are distinct and only `dismissal_restrictions` is skipped, when `None`. */
  lemma ProtectionKindsWellFormed()
    ensures WellFormed(ProtectionKind) && WellFormed(ProtectionStateKind)
  {
    LeafKindsWellFormed();
    ReviewsWellFormed();
  }

  lemma StatusChecksOfVal(s: StatusChecks)
    ensures StatusChecksOf(StatusChecksVal(s)) == s
  {
    StrsOfList(s.contexts);
  }

  lemma RestrictionsOfVal(r: Restrictions)
    ensures RestrictionsOf(RestrictionsVal(r)) == r
  {
    StrsOfList(r.users);
    StrsOfList(r.teams);
  }

  lemma ReviewsOfVal(r: RequiredPullRequestReviews)
    ensures ReviewsOf(ReviewsVal(r)) == r
  {
    if r.dismissalRestrictions.Some? {
      RestrictionsOfVal(r.dismissalRestrictions.value);
    }
  }

  lemma ProtectionOfVal(p: Protection)
    ensures ProtectionOf(ProtectionVal(p)) == p
  {
    if p.requiredStatusChecks.Some? { StatusChecksOfVal(p.requiredStatusChecks.value); }
    if p.requiredPullRequestReviews.Some? { ReviewsOfVal(p.requiredPullRequestReviews.value); }
    if p.restrictions.Some? { RestrictionsOfVal(p.restrictions.value); }
  }

  /** Reading back the body `protection` sends gives the protection: every `None` written as
      `null` reads back as `None`, and the nested records come back whole. */
  lemma ProtectionRoundTrip(p: Protection)
    ensures DecodeProtection(ProtectionJson(p)) == Ok(p)
  {
    ProtectionKindsWellFormed();
    RoundTrip(ProtectionKind, ProtectionVal(p));
    ProtectionOfVal(p);
  }

  /** Reading back a written protection state gives it again. */
  lemma ProtectionStateRoundTrip(s: ProtectionState)
    ensures DecodeProtectionState(ProtectionStateJson(s)) == Ok(s)
  {
    ProtectionKindsWellFormed();
    RoundTrip(ProtectionStateKind, ProtectionStateVal(s));
    ProtectionStateOfVal(s);
  }

  lemma ProtectionStateOfVal(s: ProtectionState)
    ensures ProtectionStateOf(ProtectionStateVal(s)) == s
  {
    if s.requiredStatusChecks.Some? { StatusChecksOfVal(s.requiredStatusChecks.value); }
  }

  /** A protection always writes all four keys, in declaration order, an unset one as `null`. */
  lemma ProtectionJsonFields(p: Protection)
    ensures ProtectionJson(p) == JObj([
      ("required_status_checks", if p.requiredStatusChecks.Some? then StatusChecksJson(p.requiredStatusChecks.value) else JNull)] +
      [("enforce_admins", JBool(p.enforceAdmins))] +
      [("required_pull_request_reviews", if p.requiredPullRequestReviews.Some? then ReviewsJson(p.requiredPullRequestReviews.value) else JNull)] +
      [("restrictions", if p.restrictions.Some? then RestrictionsJson(p.restrictions.value) else JNull)])
  {
    var k, v := ProtectionKind, ProtectionVal(p);
    EncodeFour(k, v.slots, EncodeSlot(k.fields[0], v.slots[0]), EncodeSlot(k.fields[1], v.slots[1]),
      EncodeSlot(k.fields[2], v.slots[2]), EncodeSlot(k.fields[3], v.slots[3]));
  }

  /** The review requirements write the dismissal restrictions only when set, and the three
      other keys always. */
  lemma ReviewsJsonFields(r: RequiredPullRequestReviews)
    ensures ReviewsJson(r) == JObj(
      (if r.dismissalRestrictions.Some? then [("dismissal_restrictions", RestrictionsJson(r.dismissalRestrictions.value))] else []) +
      [("dismiss_stale_reviews", JBool(r.dismissStaleReviews))] +
      [("require_code_owner_reviews", JBool(r.requireCodeOwnerReviews))] +
      [("required_approving_review_count", JInt(r.requiredApprovingReviewCount))])
  {
    var k, v := ReviewsKind, ReviewsVal(r);
    EncodeFour(k, v.slots, EncodeSlot(k.fields[0], v.slots[0]), EncodeSlot(k.fields[1], v.slots[1]),
      EncodeSlot(k.fields[2], v.slots[2]), EncodeSlot(k.fields[3], v.slots[3]));
  }

  /** A protection without `enforce_admins`, or with it `null`, does not decode; any other
      field missing or `null` reads as `None`. */
  lemma ProtectionFields(entries: seq<(string, JValue)>, n: nat)
    requires n < 4
    ensures ProtectionKind.fields[n].wire !in Keys(entries) || Occurrences(entries, ProtectionKind.fields[n].wire) == Once(JNull) ==>
      (n == 1 ==> DecodeProtection(JObj(entries)).Err?) &&
      (n != 1 && Decode(ProtectionKind, JObj(entries)).Ok? ==> Decode(ProtectionKind, JObj(entries)).value.slots[n] == None)
  {
    if ProtectionKind.fields[n].wire !in Keys(entries) {
      AbsentField(ProtectionKind, entries, n);
    } else if Occurrences(entries, ProtectionKind.fields[n].wire) == Once(JNull) {
      NullField(ProtectionKind, entries, n);
    }
  }

  /** An approving review count that is negative or does not fit a `u8` fails the review
      requirements. */
  lemma ApprovingCountRange(entries: seq<(string, JValue)>, count: int)
    requires Occurrences(entries, "required_approving_review_count") == Once(JInt(count))
    requires count < 0 || count >= 0x100
    ensures Decode(ReviewsKind, JObj(entries)).Err?
  {
    DecodeSlotCases(ReviewsKind.fields[3], entries);
    DecodeRecord(ReviewsKind, entries);
  }

  /** An empty object is a protection state with neither field. */
  lemma ProtectionStateEmpty()
    ensures DecodeProtectionState(JObj([])) == Ok(ProtectionState(None, None))
  {
    var k := ProtectionStateKind;
    DecodeSlotCases(k.fields[0], []);
    DecodeSlotCases(k.fields[1], []);
    DecodeRecordOf(k, [], [None, None]);
  }

  /** A branch given only its name reads with no protection flag and no protection url. */
  lemma BranchNameOnly(name: string)
    ensures DecodeBranch(JObj([("name", JStr(name))])) == Ok(Branch(name, None, None))
  {
    var k, entries := BranchKind, [("name", JStr(name))];
    DecodeSlotCases(k.fields[0], entries);
    DecodeSlotCases(k.fields[1], entries);
    DecodeSlotCases(k.fields[2], entries);
    DecodeRecordOf(k, entries, [Some(VStr(name)), None, None]);
  }

  /** A branch without its name does not decode. */
  lemma BranchNameRequired(entries: seq<(string, JValue)>)
    requires "name" !in Keys(entries)
    ensures DecodeBranch(JObj(entries)).Err?
  {
    AbsentField(BranchKind, entries, 0);
  }

  /** The rename body is the one key "new_name"; reading it back gives the name. */
  lemma RenameBody(r: Rename)
    ensures RenameJson(r) == JObj([("new_name", JStr(r.newName))])
    ensures Decode(RenameKind, RenameJson(r)) == Ok(VRec([Some(VStr(r.newName))]))
  {
    var k, slots := RenameKind, [Some(VStr(r.newName))];
    EncodeFieldsEnd(k, slots);
    EncodeFieldsCons(k, slots, 0);
    RoundTrip(k, VRec(slots));
  }
}
