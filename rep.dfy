/** The shared representations: the error body GitHub sends with a 4xx response, commit
    status states, and the request body for creating a status with its builder. */
module Rep {
  import opened Wrappers
  import opened Json
  import opened Schema

  /** One entry of a validation failure's `errors` list. */
  datatype FieldErr = FieldErr(
    resource: string,
    field: Option<string>,
    code: string,
    message: Option<string>,
    documentationUrl: Option<string>)

  /** The body of a 4xx response. */
  datatype ClientError = ClientError(message: string, errors: Option<seq<FieldErr>>)

  const FieldErrKind := KRec([
    Field("resource", KStr, false, Never),
    Field("field", KStr, true, Never),
    Field("code", KStr, false, Never),
    Field("message", KStr, true, Never),
    Field("documentation_url", KStr, true, Never)])

  const ClientErrorKind := KRec([
    Field("message", KStr, false, Never),
    Field("errors", KList(FieldErrKind), true, Never)])

  function FieldErrOf(v: Val): FieldErr
    requires Conforms(FieldErrKind, v)
  {
    FieldErr(StrOf(v.slots[0]), OptStrOf(v.slots[1]), StrOf(v.slots[2]), OptStrOf(v.slots[3]),
             OptStrOf(v.slots[4]))
  }

  function FieldErrVal(e: FieldErr): (v: Val)
    ensures Conforms(FieldErrKind, v)
  {
    VRec([Some(VStr(e.resource)), OptStrVal(e.field), Some(VStr(e.code)), OptStrVal(e.message),
          OptStrVal(e.documentationUrl)])
  }

  /** What conforming to `ClientErrorKind` says about a value. */
  lemma ClientErrorShape(v: Val)
    requires Conforms(ClientErrorKind, v)
    ensures v.VRec? && |v.slots| == 2 && v.slots[0].Some? && v.slots[0].value.VStr?
    ensures v.slots[1].Some? ==>
      v.slots[1].value.VList? &&
      forall i :: 0 <= i < |v.slots[1].value.items| ==> Conforms(FieldErrKind, v.slots[1].value.items[i])
  {
    SlotOf(ClientErrorKind, v, 0);
    SlotOf(ClientErrorKind, v, 1);
  }

  function ClientErrorOf(v: Val): ClientError
    requires Conforms(ClientErrorKind, v)
  {
    ClientErrorShape(v);
    var errors := v.slots[1];
    ClientError(StrOf(v.slots[0]),
      if errors.None? then None
      else Some(seq(|errors.value.items|, i requires 0 <= i < |errors.value.items| =>
                      FieldErrOf(errors.value.items[i]))))
  }

  function ClientErrorVal(c: ClientError): (v: Val)
    ensures Conforms(ClientErrorKind, v)
  {
    VRec([Some(VStr(c.message)),
      if c.errors.None? then None
      else Some(VList(seq(|c.errors.value|, i requires 0 <= i < |c.errors.value| =>
                            FieldErrVal(c.errors.value[i]))))])
  }

  /** What a conforming string slot holds: a string, and one whenever the field is not an
      `Option`. */
  lemma StrSlot(f: Field, slot: Option<Val>)
    requires f.kind == KStr && SlotConforms(f, slot)
    ensures slot.Some? ==> slot.value.VStr?
    ensures !f.optional ==> slot.Some?
  {
  }

  /** The typed view and the codec's values describe the same things. */
  lemma FieldErrViews(e: FieldErr, v: Val)
    ensures FieldErrOf(FieldErrVal(e)) == e
    ensures Conforms(FieldErrKind, v) ==> FieldErrVal(FieldErrOf(v)) == v
  {
    if Conforms(FieldErrKind, v) {
      FieldErrSlots(v);
    }
  }

  lemma FieldErrSlots(v: Val)
    requires Conforms(FieldErrKind, v)
    ensures FieldErrVal(FieldErrOf(v)) == v
  {
    var fields := FieldErrKind.fields;
    for n := 0 to 5
      invariant v.VRec? && |v.slots| == 5
      invariant forall m :: 0 <= m < n ==> StrSlotHolds(fields[m], v.slots[m])
    {
      SlotOf(FieldErrKind, v, n);
      StrSlot(fields[n], v.slots[n]);
    }
    var u := FieldErrVal(FieldErrOf(v));
    assert StrSlotHolds(fields[0], v.slots[0]) && StrSlotHolds(fields[1], v.slots[1]);
    assert StrSlotHolds(fields[2], v.slots[2]) && StrSlotHolds(fields[3], v.slots[3]);
    assert StrSlotHolds(fields[4], v.slots[4]);
    assert u.slots == v.slots;
  }

  predicate StrSlotHolds(f: Field, slot: Option<Val>) {
    (slot.Some? ==> slot.value.VStr?) && (!f.optional ==> slot.Some?)
  }

  lemma ClientErrorViews(c: ClientError, v: Val)
    ensures ClientErrorOf(ClientErrorVal(c)) == c
    ensures Conforms(ClientErrorKind, v) ==> ClientErrorVal(ClientErrorOf(v)) == v
  {
    var w := ClientErrorVal(c);
    ClientErrorShape(w);
    if c.errors.Some? {
      var back := ClientErrorOf(w).errors.value;
      assert |back| == |c.errors.value|;
      forall i | 0 <= i < |back| ensures back[i] == c.errors.value[i] {
        FieldErrViews(c.errors.value[i], w.slots[1].value.items[i]);
      }
      assert back == c.errors.value;
    }
    if Conforms(ClientErrorKind, v) {
      ClientErrorShape(v);
      var u := ClientErrorVal(ClientErrorOf(v));
      if v.slots[1].Some? {
        var items := v.slots[1].value.items;
        assert |u.slots[1].value.items| == |items|;
        forall i | 0 <= i < |items| ensures u.slots[1].value.items[i] == items[i] {
          FieldErrViews(FieldErrOf(items[i]), items[i]);
        }
        assert u.slots[1].value.items == items;
      }
      assert u.slots == v.slots;
    }
  }

  /** `serde_json::from_str::<ClientError>` on a parsed body. */
  function DecodeClientError(j: JValue): (r: Result<ClientError, DecodeError>)
    ensures r.Ok? <==> Decode(ClientErrorKind, j).Ok?
  {
    var v :- Decode(ClientErrorKind, j);
    DecodeConforms(ClientErrorKind, j);
    Ok(ClientErrorOf(v))
  }

  lemma DecodeClientErrorOf(j: JValue, v: Val)
    requires Decode(ClientErrorKind, j) == Ok(v)
    ensures Conforms(ClientErrorKind, v) && DecodeClientError(j) == Ok(ClientErrorOf(v))
  {
    DecodeConforms(ClientErrorKind, j);
  }

  /** The entry of the "Validation Failed" body of a release with a bad tag: it has no
      `field` and no `documentation_url`, and reads with both as `None`. */
  lemma DecodeReleaseErrorEntry()
    ensures Decode(FieldErrKind, JObj(ReleaseErrorEntry)) == Ok(VRec(ReleaseErrorSlots))
  {
    var e1, s1 := ReleaseErrorEntry, ReleaseErrorSlots;
    assert DecodeSlot(FieldErrKind.fields[0], e1) == Ok(s1[0]);
    assert DecodeSlot(FieldErrKind.fields[1], e1) == Ok(s1[1]);
    assert DecodeSlot(FieldErrKind.fields[2], e1) == Ok(s1[2]);
    assert DecodeSlot(FieldErrKind.fields[3], e1) == Ok(s1[3]);
    assert DecodeSlot(FieldErrKind.fields[4], e1) == Ok(s1[4]);
    DecodeRecordOf(FieldErrKind, e1, s1);
  }

  const ReleaseErrorEntry := [
    ("resource", JStr("Release")),
    ("code", JStr("custom")),
    ("message", JStr("Published releases must have a valid tag"))]

  const ReleaseErrorSlots := [Some(VStr("Release")), None, Some(VStr("custom")),
    Some(VStr("Published releases must have a valid tag")), None]

  /** The whole "Validation Failed" body decodes to a message and a one-entry list. */
  lemma DecodeReleaseValidationBody()
    ensures Decode(ClientErrorKind, JObj([("message", JStr("Validation Failed")),
                                          ("errors", JArr([JObj(ReleaseErrorEntry)]))]))
      == Ok(VRec([Some(VStr("Validation Failed")), Some(VList([VRec(ReleaseErrorSlots)]))]))
  {
    var e1, s1 := ReleaseErrorEntry, ReleaseErrorSlots;
    DecodeReleaseErrorEntry();
    var e0 := [("message", JStr("Validation Failed")), ("errors", JArr([JObj(e1)]))];
    assert [JObj(e1)][1..] == [];
    assert DecodeItems(KList(FieldErrKind), []) == Ok([]);
    assert [VRec(s1)] + [] == [VRec(s1)];
    assert DecodeItems(KList(FieldErrKind), [JObj(e1)]) == Ok([VRec(s1)]);
    var s0 := [Some(VStr("Validation Failed")), Some(VList([VRec(s1)]))];
    assert e0[1..][1..] == [];
    assert Occurrences(e0, "message") == Once(JStr("Validation Failed"));
    assert DecodeSlot(ClientErrorKind.fields[0], e0) == Ok(s0[0]);
    assert Occurrences(e0[1..], "errors") == Once(JArr([JObj(e1)]));
    assert Occurrences(e0, "errors") == Once(JArr([JObj(e1)]));
    assert DecodeSlot(ClientErrorKind.fields[1], e0) == Ok(s0[1]);
    DecodeRecordOf(ClientErrorKind, e0, s0);
  }

  /** `serde_json` reads the release body into a `ClientError` whose entry has `field` and
      `documentation_url` set to `None`. */
  lemma DecodeReleaseValidationError()
    ensures DecodeClientError(JObj([
      ("message", JStr("Validation Failed")),
      ("errors", JArr([JObj([
        ("resource", JStr("Release")),
        ("code", JStr("custom")),
        ("message", JStr("Published releases must have a valid tag"))])]))]))
      == Ok(ClientError("Validation Failed", Some([
        FieldErr("Release", None, "custom", Some("Published releases must have a valid tag"), None)])))
  {
    DecodeReleaseValidationBody();
    var v := VRec([Some(VStr("Validation Failed")), Some(VList([VRec(ReleaseErrorSlots)]))]);
    DecodeClientErrorOf(JObj([("message", JStr("Validation Failed")),
                              ("errors", JArr([JObj(ReleaseErrorEntry)]))]), v);
    ReleaseValidationErrorOf(v);
  }

  /** The value the release body decodes to reads as the one-entry client error. */
  lemma ReleaseValidationErrorOf(v: Val)
    requires v == VRec([Some(VStr("Validation Failed")), Some(VList([VRec(ReleaseErrorSlots)]))])
    requires Conforms(ClientErrorKind, v)
    ensures ClientErrorOf(v) == ClientError("Validation Failed", Some([
      FieldErr("Release", None, "custom", Some("Published releases must have a valid tag"), None)]))
  {
    var entry := FieldErr("Release", None, "custom", Some("Published releases must have a valid tag"), None);
    assert FieldErrOf(VRec(ReleaseErrorSlots)) == entry;
    var c := ClientErrorOf(v);
    assert c.message == "Validation Failed";
    assert |c.errors.value| == 1 && c.errors.value[0] == entry;
    assert c.errors.value == [entry];
  }
  /** Any message with the `errors` key absent: it reads as `None`. */
  lemma DecodeClientErrorAbsentErrors(m: string)
    ensures DecodeClientError(JObj([("message", JStr(m))])) == Ok(ClientError(m, None))
  {
    var absent := [("message", JStr(m))];
    OccurrencesUnique(absent, 0);
    DecodeSlotCases(ClientErrorKind.fields[1], absent);
    DecodeRecordOf(ClientErrorKind, absent, [Some(VStr(m)), None]);
    DecodeClientErrorOf(JObj(absent), VRec([Some(VStr(m)), None]));
  }

  /** Any message with `"errors": null`: it reads as `None`. */
  lemma DecodeClientErrorNullErrors(m: string)
    ensures DecodeClientError(JObj([("message", JStr(m)), ("errors", JNull)])) == Ok(ClientError(m, None))
  {
    var nulled := [("message", JStr(m)), ("errors", JNull)];
    OccurrencesUnique(nulled, 0);
    OccurrencesUnique(nulled, 1);
    DecodeSlotCases(ClientErrorKind.fields[1], nulled);
    DecodeRecordOf(ClientErrorKind, nulled, [Some(VStr(m)), None]);
    DecodeClientErrorOf(JObj(nulled), VRec([Some(VStr(m)), None]));
  }

  /** Any message with `"errors": []`: it reads as `Some` of the empty list, not as `None`. */
  lemma DecodeClientErrorEmptyErrors(m: string)
    ensures DecodeClientError(JObj([("message", JStr(m)), ("errors", JArr([]))])) ==
      Ok(ClientError(m, Some([])))
  {
    var empty := [("message", JStr(m)), ("errors", JArr([]))];
    OccurrencesUnique(empty, 0);
    OccurrencesUnique(empty, 1);
    assert DecodeSlot(ClientErrorKind.fields[1], empty) == Ok(Some(VList([])));
    var v := VRec([Some(VStr(m)), Some(VList([]))]);
    DecodeRecordOf(ClientErrorKind, empty, v.slots);
    DecodeClientErrorOf(JObj(empty), v);
    assert ClientErrorOf(v).errors.value == [];
  }

  /** The state of a commit status. */
  datatype StatusState = Pending | Success | Error | Failure

  /** The wire string of each state, the `#[serde(rename = ...)]` of each variant. */
  function StatusStateTag(s: StatusState): string {
    match s
    case Pending => "pending"
    case Success => "success"
    case Error => "error"
    case Failure => "failure"
  }

  const StatusStateTags := ["pending", "success", "error", "failure"]

  /** Reading a state from its wire string; there is no fallback variant. */
  function ParseStatusState(t: string): (r: Option<StatusState>)
    ensures forall s :: r == Some(s) <==> StatusStateTag(s) == t
    ensures r.Some? <==> t in StatusStateTags
  {
    match t
    case "pending" => Some(Pending)
    case "success" => Some(Success)
    case "error" => Some(Error)
    case "failure" => Some(Failure)
    case _ => None
  }

  /** `StatusState::default()`. */
  function DefaultStatusState(): (s: StatusState)
    ensures StatusStateTag(s) == "pending"
  {
    Pending
  }

  /** The body that creates a commit status. */
  datatype StatusOptions = StatusOptions(
    state: StatusState,
    targetUrl: Option<string>,
    description: Option<string>,
    context: Option<string>)

  /** Declaration order, each optional field skipped when `None`. */
  const StatusOptionsKind := KRec([
    Req("state", KTag(StatusStateTags)),
    OptSkip("target_url", KStr),
    OptSkip("description", KStr),
    OptSkip("context", KStr)])

  function StatusOptionsVal(o: StatusOptions): (v: Val)
    ensures Conforms(StatusOptionsKind, v)
  {
    VRec([Some(VTag(StatusStateTag(o.state))), OptStrVal(o.targetUrl), OptStrVal(o.description),
          OptStrVal(o.context)])
  }

  /** The JSON `serde_json` writes for the options. */
  function StatusOptionsJson(o: StatusOptions): JValue {
    Encode(StatusOptionsKind, StatusOptionsVal(o))
  }

  /** The body lists state, target_url, description and context in that order, leaving out
      each one that is `None`. */
  lemma StatusOptionsJsonFields(o: StatusOptions)
    ensures StatusOptionsJson(o) == JObj([("state", JStr(StatusStateTag(o.state)))] +
      OptEntry("target_url", o.targetUrl) + OptEntry("description", o.description) +
      OptEntry("context", o.context))
  {
    var k, v := StatusOptionsKind, StatusOptionsVal(o);
    assert EncodeSlot(k.fields[0], v.slots[0]) == [("state", JStr(StatusStateTag(o.state)))];
    EncodeFour(k, v.slots, [("state", JStr(StatusStateTag(o.state)))], OptEntry("target_url", o.targetUrl),
      OptEntry("description", o.description), OptEntry("context", o.context));
  }

  /** What a server reads back from the body is the options that were sent. */
  lemma StatusOptionsRoundTrip(o: StatusOptions)
    ensures Decode(StatusOptionsKind, StatusOptionsJson(o)) == Ok(StatusOptionsVal(o))
  {
    RoundTrip(StatusOptionsKind, StatusOptionsVal(o));
  }

  /** The four bodies of the status request examples. */
  lemma StatusOptionsExamples()
    ensures StatusOptionsJson(StatusOptions(Pending, None, None, None)) ==
      JObj([("state", JStr("pending"))])
    ensures StatusOptionsJson(StatusOptions(Success, Some("http://acme.com"), None, None)) ==
      JObj([("state", JStr("success")), ("target_url", JStr("http://acme.com"))])
    ensures StatusOptionsJson(StatusOptions(Error, None, Some("desc"), None)) ==
      JObj([("state", JStr("error")), ("description", JStr("desc"))])
    ensures StatusOptionsJson(StatusOptions(Failure, Some("http://acme.com"), Some("desc"), None)) ==
      JObj([("state", JStr("failure")), ("target_url", JStr("http://acme.com")), ("description", JStr("desc"))])
  {
    StatusOptionsJsonFields(StatusOptions(Pending, None, None, None));
    StatusOptionsJsonFields(StatusOptions(Success, Some("http://acme.com"), None, None));
    StatusOptionsJsonFields(StatusOptions(Error, None, Some("desc"), None));
    StatusOptionsJsonFields(StatusOptions(Failure, Some("http://acme.com"), Some("desc"), None));
  }

  /** `StatusBuilder`: starts from a state with every optional field `None`; each setter fills in
      its own field. */
  class StatusBuilder {
    var state: StatusState
    var targetUrl: Option<string>
    var description: Option<string>
    var context: Option<string>

    constructor (state: StatusState)
      ensures this.state == state && targetUrl == None && description == None && context == None
    {
      this.state := state;
      targetUrl := None;
      description := None;
      context := None;
    }

    method SetTargetUrl(url: string)
      modifies this
      ensures targetUrl == Some(url)
      ensures state == old(state) && description == old(description) && context == old(context)
    {
      targetUrl := Some(url);
    }

    method SetDescription(desc: string)
      modifies this
      ensures description == Some(desc)
      ensures state == old(state) && targetUrl == old(targetUrl) && context == old(context)
    {
      description := Some(desc);
    }

    method SetContext(ctx: string)
      modifies this
      ensures context == Some(ctx)
      ensures state == old(state) && targetUrl == old(targetUrl) && description == old(description)
    {
      context := Some(ctx);
    }

    /** The options with every field as the builder holds it. */
    function Build(): (o: StatusOptions)
      reads this
      ensures o.state == state && o.targetUrl == targetUrl
      ensures o.description == description && o.context == context
    {
      StatusOptions(state, targetUrl, description, context)
    }
  }
}
