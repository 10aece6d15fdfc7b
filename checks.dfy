/** Check runs: the create, update and list-for-suite requests, the three tag enums, the output
    records a check run carries, the two request bodies and the check run record. */
module Checks {
  import opened Wrappers
  import opened Json
  import opened Schema
  import Client

  /** `CheckRuns`: the check runs of one repository. */
  datatype CheckRunsApi = CheckRunsApi(owner: string, repo: string)

  function Path(c: CheckRunsApi, more: string): string {
    "/repos/" + c.owner + "/" + c.repo + "/check-runs" + more
  }

  function Create(c: CheckRunsApi, o: CheckRunOptions): (req: Client.Call)
    ensures req == Client.Call(Client.Post, "/repos/" + c.owner + "/" + c.repo + "/check-runs", Client.JsonBody(CheckRunOptionsJson(o)))
  {
    Client.PostCall(Path(c, ""), CheckRunOptionsJson(o))
  }

  /** `update`: also a POST, to the check run's own uri. */
  function Update(c: CheckRunsApi, id: string, o: CheckRunUpdateOptions): (req: Client.Call)
    ensures req == Client.Call(Client.Post, "/repos/" + c.owner + "/" + c.repo + "/check-runs/" + id, Client.JsonBody(CheckRunUpdateOptionsJson(o)))
  {
    Client.PostCall(Path(c, "/" + id), CheckRunUpdateOptionsJson(o))
  }

  /** `list_for_suite`: the suite id, then "check-runs" once more, below the check runs. */
  function ListForSuite(c: CheckRunsApi, suiteId: string): (req: Client.Call)
    ensures req == Client.Call(Client.Get, "/repos/" + c.owner + "/" + c.repo + "/check-runs/" + suiteId + "/check-runs", Client.NoBody)
  {
    Client.GetCall(Path(c, "/" + suiteId + "/check-runs"))
  }

  /** Creating and updating both post, the update below the created collection; listing a
      suite reads below the same collection. */
  lemma CheckRunCalls(c: CheckRunsApi, id: string, suiteId: string, o: CheckRunOptions, u: CheckRunUpdateOptions)
    ensures Create(c, o).uri == "/repos/" + c.owner + "/" + c.repo + "/check-runs"
    ensures Update(c, id, u).uri == Create(c, o).uri + "/" + id
    ensures ListForSuite(c, suiteId).uri == Create(c, o).uri + "/" + suiteId + "/check-runs"
    ensures Create(c, o).verb == Update(c, id, u).verb == Client.Post
    ensures ListForSuite(c, suiteId).verb == Client.Get && ListForSuite(c, suiteId).body == Client.NoBody
  {
  }

  /** `CheckRunState`, written in snake case. */
  datatype CheckRunState = Queued | InProgress | Completed

  function CheckRunStateTag(s: CheckRunState): string {
    match s
    case Queued => "queued"
    case InProgress => "in_progress"
    case Completed => "completed"
  }

  const CheckRunStateTags := ["queued", "in_progress", "completed"]

  /** Reading a state from its tag; there is no fallback variant. */
  function ParseCheckRunState(t: string): (r: Option<CheckRunState>)
    ensures forall s :: r == Some(s) <==> CheckRunStateTag(s) == t
    ensures r.Some? <==> t in CheckRunStateTags
  {
    match t
    case "queued" => Some(Queued)
    case "in_progress" => Some(InProgress)
    case "completed" => Some(Completed)
    case _ => None
  }

  /** `Conclusion`, written in snake case. */
  datatype Conclusion = Skipped | Success | Failure | Neutral | Cancelled | TimedOut | ActionRequired

  function ConclusionTag(c: Conclusion): string {
    match c
    case Skipped => "skipped"
    case Success => "success"
    case Failure => "failure"
    case Neutral => "neutral"
    case Cancelled => "cancelled"
    case TimedOut => "timed_out"
    case ActionRequired => "action_required"
  }

  const ConclusionTags := ["skipped", "success", "failure", "neutral", "cancelled", "timed_out", "action_required"]

  function ParseConclusion(t: string): (r: Option<Conclusion>)
    ensures forall c :: r == Some(c) <==> ConclusionTag(c) == t
    ensures r.Some? <==> t in ConclusionTags
  {
    match t
    case "skipped" => Some(Skipped)
    case "success" => Some(Success)
    case "failure" => Some(Conclusion.Failure)
    case "neutral" => Some(Neutral)
    case "cancelled" => Some(Cancelled)
    case "timed_out" => Some(TimedOut)
    case "action_required" => Some(ActionRequired)
    case _ => None
  }

  /** `AnnotationLevel`, written in snake case. */
  datatype AnnotationLevel = Notice | Warning | Failure

  function AnnotationLevelTag(l: AnnotationLevel): string {
    match l
    case Notice => "notice"
    case Warning => "warning"
    case Failure => "failure"
  }

  const AnnotationLevelTags := ["notice", "warning", "failure"]

  function ParseAnnotationLevel(t: string): (r: Option<AnnotationLevel>)
    ensures forall l :: r == Some(l) <==> AnnotationLevelTag(l) == t
    ensures r.Some? <==> t in AnnotationLevelTags
  {
    match t
    case "notice" => Some(Notice)
    case "warning" => Some(Warning)
    case "failure" => Some(AnnotationLevel.Failure)
    case _ => None
  }

  const CheckRunStateKind := KTag(CheckRunStateTags)
  const ConclusionKind := KTag(ConclusionTags)
  const AnnotationLevelKind := KTag(AnnotationLevelTags)

  /** Each of the three enums reads exactly its own tags; any other string is an unknown
      variant. */
  lemma TagsDecode(t: string)
    ensures Decode(CheckRunStateKind, JStr(t)) ==
      if ParseCheckRunState(t).Some? then Ok(VTag(t)) else Err(UnknownVariant(t))
    ensures Decode(ConclusionKind, JStr(t)) ==
      if ParseConclusion(t).Some? then Ok(VTag(t)) else Err(UnknownVariant(t))
    ensures Decode(AnnotationLevelKind, JStr(t)) ==
      if ParseAnnotationLevel(t).Some? then Ok(VTag(t)) else Err(UnknownVariant(t))
  {
  }

  /** `Action`: three required strings; its `label` is `labelText` here, `label` being a
      Dafny keyword. */
  datatype Action = Action(labelText: string, description: string, identifier: string)

  const ActionKind := KRec([Req("label", KStr), Req("description", KStr), Req("identifier", KStr)])

  function ActionVal(a: Action): (v: Val)
    ensures Conforms(ActionKind, v)
  {
    VRec([Some(VStr(a.labelText)), Some(VStr(a.description)), Some(VStr(a.identifier))])
  }

  function ActionOf(v: Val): Action {
    if v.VRec? && |v.slots| == 3 then Action(StrOf(v.slots[0]), StrOf(v.slots[1]), StrOf(v.slots[2]))
    else Action("", "", "")
  }

  /** `Image`: the caption is written only when set. */
  datatype Image = Image(alt: string, imageUrl: string, caption: Option<string>)

  const ImageKind := KRec([Req("alt", KStr), Req("image_url", KStr), OptSkip("caption", KStr)])

  function ImageVal(i: Image): (v: Val)
    ensures Conforms(ImageKind, v)
  {
    VRec([Some(VStr(i.alt)), Some(VStr(i.imageUrl)), OptStrVal(i.caption)])
  }

  function ImageOf(v: Val): Image {
    if v.VRec? && |v.slots| == 3 then Image(StrOf(v.slots[0]), StrOf(v.slots[1]), OptStrOf(v.slots[2]))
    else Image("", "", None)
  }

  /** `Annotation`: lines and columns are `u32`, the columns written only when set. */
  datatype Annotation = Annotation(
    path: string,
    startLine: Uint32,
    endLine: Uint32,
    startColumn: Option<Uint32>,
    endColumn: Option<Uint32>,
    level: AnnotationLevel,
    message: string,
    title: string,
    rawDetails: string)

  const AnnotationKind := KRec([
    Req("path", KStr), Req("start_line", U32), Req("end_line", U32), OptSkip("start_column", U32),
    OptSkip("end_column", U32), Req("annotation_level", AnnotationLevelKind), Req("message", KStr),
    Req("title", KStr), Req("raw_details", KStr)])

  function U32Val(x: Option<Uint32>): Option<Val> {
    if x.Some? then Some(VInt(x.value)) else None
  }

  /** The `u32` in a decoded slot. */
  function U32Of(slot: Option<Val>): Uint32 {
    if slot.Some? && slot.value.VInt? && 0 <= slot.value.i < 0x1_0000_0000 then slot.value.i else 0
  }

  function OptU32Of(slot: Option<Val>): Option<Uint32> {
    if slot.Some? then Some(U32Of(slot)) else None
  }

  function LevelOf(slot: Option<Val>): AnnotationLevel {
    if slot.Some? && slot.value.VTag? && ParseAnnotationLevel(slot.value.tag).Some? then
      ParseAnnotationLevel(slot.value.tag).value
    else Notice
  }

  function AnnotationVal(a: Annotation): (v: Val)
    ensures v.VRec? && |v.slots| == 9
  {
    VRec([Some(VStr(a.path)), Some(VInt(a.startLine)), Some(VInt(a.endLine)), U32Val(a.startColumn),
      U32Val(a.endColumn), Some(VTag(AnnotationLevelTag(a.level))), Some(VStr(a.message)), Some(VStr(a.title)),
      Some(VStr(a.rawDetails))])
  }

  function AnnotationOf(v: Val): Annotation {
    if v.VRec? && |v.slots| == 9 then
      Annotation(StrOf(v.slots[0]), U32Of(v.slots[1]), U32Of(v.slots[2]), OptU32Of(v.slots[3]),
        OptU32Of(v.slots[4]), LevelOf(v.slots[5]), StrOf(v.slots[6]), StrOf(v.slots[7]), StrOf(v.slots[8]))
    else Annotation("", 0, 0, None, None, Notice, "", "", "")
  }

  /** `Output`: text, annotations and images are written only when set. */
  datatype Output = Output(
    title: string,
    summary: string,
    text: Option<string>,
    annotations: Option<seq<Annotation>>,
    images: Option<seq<Image>>)

  const OutputKind := KRec([
    Req("title", KStr), Req("summary", KStr), OptSkip("text", KStr),
    OptSkip("annotations", KList(AnnotationKind)), OptSkip("images", KList(ImageKind))])

  function AnnotationsVal(annotations: seq<Annotation>): (v: Val)
    ensures v.VList? && |v.items| == |annotations|
    ensures forall n :: 0 <= n < |annotations| ==> v.items[n] == AnnotationVal(annotations[n])
  {
    VList(seq(|annotations|, n requires 0 <= n < |annotations| => AnnotationVal(annotations[n])))
  }

  function ImagesVal(images: seq<Image>): (v: Val)
    ensures v.VList? && |v.items| == |images|
    ensures forall n :: 0 <= n < |images| ==> v.items[n] == ImageVal(images[n])
  {
    VList(seq(|images|, n requires 0 <= n < |images| => ImageVal(images[n])))
  }

  function OutputVal(o: Output): (v: Val)
    ensures v.VRec? && |v.slots| == 5
  {
    VRec([Some(VStr(o.title)), Some(VStr(o.summary)), OptStrVal(o.text),
      if o.annotations.Some? then Some(AnnotationsVal(o.annotations.value)) else None,
      if o.images.Some? then Some(ImagesVal(o.images.value)) else None])
  }

  function AnnotationsOf(slot: Option<Val>): Option<seq<Annotation>> {
    if slot.Some? && slot.value.VList? then
      Some(seq(|slot.value.items|, n requires 0 <= n < |slot.value.items| => AnnotationOf(slot.value.items[n])))
    else None
  }

  function ImagesOf(slot: Option<Val>): Option<seq<Image>> {
    if slot.Some? && slot.value.VList? then
      Some(seq(|slot.value.items|, n requires 0 <= n < |slot.value.items| => ImageOf(slot.value.items[n])))
    else None
  }

  function OutputOf(v: Val): Output {
    if v.VRec? && |v.slots| == 5 then
      Output(StrOf(v.slots[0]), StrOf(v.slots[1]), OptStrOf(v.slots[2]), AnnotationsOf(v.slots[3]), ImagesOf(v.slots[4]))
    else Output("", "", None, None, None)
  }

  function OutputJson(o: Output): JValue {
    Encode(OutputKind, OutputVal(o))
  }

  /** Reading an output from JSON, as the derived `Deserialize` does. */
  function DecodeOutput(j: JValue): (r: Result<Output, DecodeError>)
    ensures r.Ok? <==> Decode(OutputKind, j).Ok?
  {
    match Decode(OutputKind, j)
    case Ok(v) => Ok(OutputOf(v))
    case Err(e) => Err(e)
  }

  lemma ActionRoundTrip(a: Action)
    ensures Decode(ActionKind, Encode(ActionKind, ActionVal(a))) == Ok(ActionVal(a))
    ensures ActionOf(ActionVal(a)) == a
  {
    OutputKindsWellFormed();
    RoundTrip(ActionKind, ActionVal(a));
  }

  lemma ImageRoundTrip(i: Image)
    ensures Decode(ImageKind, Encode(ImageKind, ImageVal(i))) == Ok(ImageVal(i))
    ensures ImageOf(ImageVal(i)) == i
  {
    OutputKindsWellFormed();
    RoundTrip(ImageKind, ImageVal(i));
  }

  lemma AnnotationWellFormed()
    ensures WellFormed(AnnotationKind)
  {
  }

  lemma ActionImageWellFormed()
    ensures WellFormed(ActionKind) && WellFormed(ImageKind)
  {
  }

  /** Field names are distinct and nothing is skipped but an `Option`, in each output record. */
  lemma OutputKindsWellFormed()
    ensures WellFormed(ActionKind) && WellFormed(ImageKind)
    ensures WellFormed(AnnotationKind) && WellFormed(OutputKind)
  {
    AnnotationWellFormed();
    ActionImageWellFormed();
  }

  lemma OutputWires()
    ensures forall a, b :: 0 <= a < b < |OutputKind.fields| ==> OutputKind.fields[a].wire != OutputKind.fields[b].wire
  {
  }

  /** An annotation's value is one the decoder can produce: its level is one of the tags and
      its lines fit a `u32`. */
  lemma AnnotationConforms(a: Annotation)
    ensures Conforms(AnnotationKind, AnnotationVal(a))
  {
    var k, v := AnnotationKind, AnnotationVal(a);
    assert AnnotationLevelTag(a.level) in AnnotationLevelTags;
    forall n | 0 <= n < 9 ensures SlotConforms(k.fields[n], v.slots[n]) {
    }
  }

  lemma AnnotationRoundTrip(a: Annotation)
    ensures Decode(AnnotationKind, Encode(AnnotationKind, AnnotationVal(a))) == Ok(AnnotationVal(a))
    ensures AnnotationOf(AnnotationVal(a)) == a
  {
    AnnotationWellFormed();
    AnnotationConforms(a);
    RoundTrip(AnnotationKind, AnnotationVal(a));
    AnnotationOfVal(a);
  }

  lemma AnnotationOfVal(a: Annotation)
    ensures AnnotationOf(AnnotationVal(a)) == a
  {
    assert ParseAnnotationLevel(AnnotationLevelTag(a.level)) == Some(a.level);
  }

  /** An output's value is one the decoder can produce. */
  lemma OutputConforms(o: Output)
    ensures Conforms(OutputKind, OutputVal(o))
  {
    var k, v := OutputKind, OutputVal(o);
    if o.annotations.Some? {
      var items := v.slots[3].value.items;
      forall n | 0 <= n < |items| ensures Conforms(AnnotationKind, items[n]) {
        AnnotationConforms(o.annotations.value[n]);
      }
      assert SlotConforms(k.fields[3], v.slots[3]);
    }
    if o.images.Some? {
      assert SlotConforms(k.fields[4], v.slots[4]);
    }
  }

  /** An output's annotations and images come back in the order written. */
  lemma OutputOfVal(o: Output)
    ensures OutputOf(OutputVal(o)) == o
  {
    var v := OutputVal(o);
    if o.annotations.Some? {
      var a := o.annotations.value;
      forall n | 0 <= n < |a| ensures AnnotationOf(AnnotationVal(a[n])) == a[n] {
        AnnotationRoundTrip(a[n]);
      }
      assert AnnotationsOf(v.slots[3]).value == a;
    }
    if o.images.Some? {
      var im := o.images.value;
      forall n | 0 <= n < |im| ensures ImageOf(ImageVal(im[n])) == im[n] {
        ImageRoundTrip(im[n]);
      }
      assert ImagesOf(v.slots[4]).value == im;
    }
  }

  /** Reading back what was written for an output gives the output: `None` fields were left
      out and read back as `None`. */
  lemma OutputRoundTrip(o: Output)
    ensures DecodeOutput(OutputJson(o)) == Ok(o)
  {
    OutputKindsWellFormed();
    OutputConforms(o);
    RoundTrip(OutputKind, OutputVal(o));
    OutputOfVal(o);
  }

  /** An output always writes its title and summary. */
  lemma OutputRequiredFields(o: Output)
    ensures Occurrences(OutputJson(o).entries, "title") == Once(JStr(o.title))
    ensures Occurrences(OutputJson(o).entries, "summary") == Once(JStr(o.summary))
  {
    var k, v := OutputKind, OutputVal(o);
    OutputWires();
    EncodeFieldsFound(k, v.slots, 0, 0);
    EncodeFieldsFound(k, v.slots, 0, 1);
  }

  /** An output writes its text, annotations and images only when they are set. */
  lemma OutputOptionalFields(o: Output)
    ensures Occurrences(OutputJson(o).entries, "text") == StrFound(o.text)
    ensures o.annotations.None? <==> Occurrences(OutputJson(o).entries, "annotations") == Absent
    ensures o.images.None? <==> Occurrences(OutputJson(o).entries, "images") == Absent
  {
    var k, v := OutputKind, OutputVal(o);
    OutputWires();
    EncodedStrField(k, v.slots, 2, o.text);
    EncodedField(k, v.slots, 3);
    EncodedField(k, v.slots, 4);
  }

  /** Every `Option` field of the output records is one a missing key reads as `None`. */
  lemma OutputOptional()
    ensures OptionalExactly(OutputKind, {"text", "annotations", "images"})
    ensures OptionalExactly(AnnotationKind, {"start_column", "end_column"})
    ensures OptionalExactly(ImageKind, {"caption"})
    ensures OptionalExactly(ActionKind, {})
  {
  }

  /** An annotation whose level is not one of the three tags does not decode. */
  lemma AnnotationUnknownLevel(entries: seq<(string, JValue)>, t: string)
    requires Occurrences(entries, "annotation_level") == Once(JStr(t)) && ParseAnnotationLevel(t).None?
    ensures Decode(AnnotationKind, JObj(entries)).Err?
  {
    DecodeSlotCases(AnnotationKind.fields[5], entries);
    DecodeRecord(AnnotationKind, entries);
  }

  /** An annotation line beyond `u32` does not decode. */
  lemma AnnotationLineRange(entries: seq<(string, JValue)>, line: int)
    requires Occurrences(entries, "start_line") == Once(JInt(line)) && !(0 <= line < 0x1_0000_0000)
    ensures Decode(AnnotationKind, JObj(entries)).Err?
  {
    DecodeSlotCases(AnnotationKind.fields[1], entries);
    DecodeRecord(AnnotationKind, entries);
  }

  function StateVal(s: Option<CheckRunState>): Option<Val> {
    if s.Some? then Some(VTag(CheckRunStateTag(s.value))) else None
  }

  function ConclusionVal(c: Option<Conclusion>): Option<Val> {
    if c.Some? then Some(VTag(ConclusionTag(c.value))) else None
  }

  function ActionsVal(actions: seq<Action>): (v: Val)
    ensures Conforms(KList(ActionKind), v)
  {
    VList(seq(|actions|, n requires 0 <= n < |actions| => ActionVal(actions[n])))
  }

  function ActionsJson(actions: seq<Action>): JValue {
    Encode(KList(ActionKind), ActionsVal(actions))
  }

  /** `CheckRunOptions`: name and head_sha always, everything else only when set. */
  datatype CheckRunOptions = CheckRunOptions(
    name: string,
    headSha: string,
    detailsUrl: Option<string>,
    externalId: Option<string>,
    status: Option<CheckRunState>,
    startedAt: Option<string>,
    conclusion: Option<Conclusion>,
    completedAt: Option<string>,
    output: Option<Output>,
    actions: Option<seq<Action>>)

  const CheckRunOptionsKind := KRec([
    Req("name", KStr), Req("head_sha", KStr), OptSkip("details_url", KStr), OptSkip("external_id", KStr),
    OptSkip("status", CheckRunStateKind), OptSkip("started_at", KStr), OptSkip("conclusion", ConclusionKind),
    OptSkip("completed_at", KStr), OptSkip("output", OutputKind), OptSkip("actions", KList(ActionKind))])

  function CheckRunOptionsVal(o: CheckRunOptions): (v: Val)
    ensures v.VRec? && |v.slots| == 10
  {
    VRec([Some(VStr(o.name)), Some(VStr(o.headSha)), OptStrVal(o.detailsUrl), OptStrVal(o.externalId),
      StateVal(o.status), OptStrVal(o.startedAt), ConclusionVal(o.conclusion), OptStrVal(o.completedAt),
      if o.output.Some? then Some(OutputVal(o.output.value)) else None,
      if o.actions.Some? then Some(ActionsVal(o.actions.value)) else None])
  }

  function CheckRunOptionsJson(o: CheckRunOptions): JValue {
    Encode(CheckRunOptionsKind, CheckRunOptionsVal(o))
  }

  /** How a tag field skipped when `None` occurs. */
  function TagFound(tag: Option<string>): Found {
    if tag.Some? then Once(JStr(tag.value)) else Absent
  }

  lemma CheckRunOptionsWires()
    ensures forall a, b :: 0 <= a < b < |CheckRunOptionsKind.fields| ==>
      CheckRunOptionsKind.fields[a].wire != CheckRunOptionsKind.fields[b].wire
  {
  }

  /** A create body always writes the name and the head sha. */
  lemma CheckRunOptionsRequired(o: CheckRunOptions)
    ensures Occurrences(CheckRunOptionsJson(o).entries, "name") == Once(JStr(o.name))
    ensures Occurrences(CheckRunOptionsJson(o).entries, "head_sha") == Once(JStr(o.headSha))
  {
    var k, v := CheckRunOptionsKind, CheckRunOptionsVal(o);
    CheckRunOptionsWires();
    EncodeFieldsFound(k, v.slots, 0, 0);
    EncodeFieldsFound(k, v.slots, 0, 1);
  }

  /** The details url and the external id are written once when set, not at all when `None`. */
  lemma CheckRunOptionsIds(o: CheckRunOptions)
    ensures Occurrences(CheckRunOptionsJson(o).entries, "details_url") == StrFound(o.detailsUrl)
    ensures Occurrences(CheckRunOptionsJson(o).entries, "external_id") == StrFound(o.externalId)
  {
    var k, v := CheckRunOptionsKind, CheckRunOptionsVal(o);
    CheckRunOptionsWires();
    EncodedStrField(k, v.slots, 2, o.detailsUrl);
    EncodedStrField(k, v.slots, 3, o.externalId);
  }

  /** The start and completion times are written once when set, not at all when `None`. */
  lemma CheckRunOptionsTimes(o: CheckRunOptions)
    ensures Occurrences(CheckRunOptionsJson(o).entries, "started_at") == StrFound(o.startedAt)
    ensures Occurrences(CheckRunOptionsJson(o).entries, "completed_at") == StrFound(o.completedAt)
  {
    var k, v := CheckRunOptionsKind, CheckRunOptionsVal(o);
    CheckRunOptionsWires();
    EncodedStrField(k, v.slots, 5, o.startedAt);
    EncodedStrField(k, v.slots, 7, o.completedAt);
  }

  /** The status and the conclusion are written as their tags when set. */
  lemma CheckRunOptionsTags(o: CheckRunOptions)
    ensures Occurrences(CheckRunOptionsJson(o).entries, "status") ==
      TagFound(if o.status.Some? then Some(CheckRunStateTag(o.status.value)) else None)
    ensures Occurrences(CheckRunOptionsJson(o).entries, "conclusion") ==
      TagFound(if o.conclusion.Some? then Some(ConclusionTag(o.conclusion.value)) else None)
  {
    var k, v := CheckRunOptionsKind, CheckRunOptionsVal(o);
    CheckRunOptionsWires();
    EncodedField(k, v.slots, 4);
    EncodedField(k, v.slots, 6);
  }

  /** The output and the actions are written as their JSON when set. */
  lemma CheckRunOptionsNested(o: CheckRunOptions)
    ensures Occurrences(CheckRunOptionsJson(o).entries, "output") ==
      if o.output.Some? then Once(OutputJson(o.output.value)) else Absent
    ensures Occurrences(CheckRunOptionsJson(o).entries, "actions") ==
      if o.actions.Some? then Once(ActionsJson(o.actions.value)) else Absent
  {
    var k, v := CheckRunOptionsKind, CheckRunOptionsVal(o);
    CheckRunOptionsWires();
    EncodedField(k, v.slots, 8);
    EncodedField(k, v.slots, 9);
  }

  /** `CheckRunUpdateOptions`: every field, the name included, only when set. */
  datatype CheckRunUpdateOptions = CheckRunUpdateOptions(
    name: Option<string>,
    detailsUrl: Option<string>,
    externalId: Option<string>,
    status: Option<CheckRunState>,
    startedAt: Option<string>,
    conclusion: Option<Conclusion>,
    completedAt: Option<string>,
    output: Option<Output>,
    actions: Option<seq<Action>>)

  const CheckRunUpdateOptionsKind := KRec([
    OptSkip("name", KStr), OptSkip("details_url", KStr), OptSkip("external_id", KStr),
    OptSkip("status", CheckRunStateKind), OptSkip("started_at", KStr), OptSkip("conclusion", ConclusionKind),
    OptSkip("completed_at", KStr), OptSkip("output", OutputKind), OptSkip("actions", KList(ActionKind))])

  function CheckRunUpdateOptionsVal(o: CheckRunUpdateOptions): (v: Val)
    ensures v.VRec? && |v.slots| == 9
  {
    VRec([OptStrVal(o.name), OptStrVal(o.detailsUrl), OptStrVal(o.externalId), StateVal(o.status),
      OptStrVal(o.startedAt), ConclusionVal(o.conclusion), OptStrVal(o.completedAt),
      if o.output.Some? then Some(OutputVal(o.output.value)) else None,
      if o.actions.Some? then Some(ActionsVal(o.actions.value)) else None])
  }

  function CheckRunUpdateOptionsJson(o: CheckRunUpdateOptions): JValue {
    Encode(CheckRunUpdateOptionsKind, CheckRunUpdateOptionsVal(o))
  }

  lemma CheckRunUpdateOptionsWires()
    ensures forall a, b :: 0 <= a < b < |CheckRunUpdateOptionsKind.fields| ==>
      CheckRunUpdateOptionsKind.fields[a].wire != CheckRunUpdateOptionsKind.fields[b].wire
  {
  }

  /** An update writes exactly the fields that are set: a field that is `None` is absent, one
      that is set occurs once. */
  lemma CheckRunUpdateOptionsFields(o: CheckRunUpdateOptions, n: nat)
    requires n < 9
    ensures CheckRunUpdateOptionsVal(o).slots[n].None? <==>
      Occurrences(CheckRunUpdateOptionsJson(o).entries, CheckRunUpdateOptionsKind.fields[n].wire) == Absent
  {
    CheckRunUpdateOptionsWires();
    EncodedField(CheckRunUpdateOptionsKind, CheckRunUpdateOptionsVal(o).slots, n);
  }

  const NoUpdate := CheckRunUpdateOptions(None, None, None, None, None, None, None, None, None)

  /** An update that sets nothing is the empty object. */
  lemma CheckRunUpdateOptionsEmpty()
    ensures CheckRunUpdateOptionsJson(NoUpdate) == JObj([])
  {
    EncodeFieldsSkipped(CheckRunUpdateOptionsKind, CheckRunUpdateOptionsVal(NoUpdate).slots, 0);
  }

  /** Any update that sets a field is not the empty object. */
  lemma CheckRunUpdateOptionsNotEmpty(o: CheckRunUpdateOptions)
    requires o != NoUpdate
    ensures CheckRunUpdateOptionsJson(o) != JObj([])
  {
    var k, v := CheckRunUpdateOptionsKind, CheckRunUpdateOptionsVal(o);
    var n: nat :=
      if o.name.Some? then 0 else if o.detailsUrl.Some? then 1 else if o.externalId.Some? then 2
      else if o.status.Some? then 3 else if o.startedAt.Some? then 4 else if o.conclusion.Some? then 5
      else if o.completedAt.Some? then 6 else if o.output.Some? then 7 else 8;
    assert v.slots[n].Some?;
    CheckRunUpdateOptionsFields(o, n);
    assert Occurrences([], k.fields[n].wire) == Absent;
  }

  /** `CheckSuite`: the id only. */
  const CheckSuiteKind := KRec([Req("id", U64)])

  /** `CheckRun`: it has no output field; the seven fields after check_suite are optional. */
  const CheckRunKind := KRec([
    Req("id", U64), Req("name", KStr), Req("head_sha", KStr), Req("url", KStr), Req("check_suite", CheckSuiteKind),
    Opt("details_url", KStr), Opt("external_id", KStr), Opt("status", CheckRunStateKind), Opt("started_at", KStr),
    Opt("conclusion", ConclusionKind), Opt("completed_at", KStr), Opt("actions", KList(ActionKind))])

  const CheckRunOptional := {"details_url", "external_id", "status", "started_at", "conclusion", "completed_at", "actions"}

  /** A check run missing one of its optional fields reads it as `None`; one missing any other
      field does not decode. */
  lemma CheckRunFields(entries: seq<(string, JValue)>, n: nat)
    requires n < |CheckRunKind.fields| && CheckRunKind.fields[n].wire !in Keys(entries)
    ensures CheckRunKind.fields[n].wire !in CheckRunOptional ==> Decode(CheckRunKind, JObj(entries)).Err?
    ensures CheckRunKind.fields[n].wire in CheckRunOptional && Decode(CheckRunKind, JObj(entries)).Ok? ==>
      Decode(CheckRunKind, JObj(entries)).value.slots[n] == None
  {
    assert OptionalExactly(CheckRunKind, CheckRunOptional);
    AbsentField(CheckRunKind, entries, n);
  }

  /** An "output" key, whatever it holds, is ignored when reading a check run. */
  lemma CheckRunIgnoresOutput(before: seq<(string, JValue)>, output: JValue, after: seq<(string, JValue)>)
    ensures Decode(CheckRunKind, JObj(before + [("output", output)] + after)) == Decode(CheckRunKind, JObj(before + after))
  {
    DecodeIgnoresUnknown(CheckRunKind, before, ("output", output), after);
  }

  /** A check run whose status is not one of the state tags does not decode. */
  lemma CheckRunUnknownTag(entries: seq<(string, JValue)>, t: string)
    requires Occurrences(entries, "status") == Once(JStr(t)) && ParseCheckRunState(t).None?
    ensures Decode(CheckRunKind, JObj(entries)).Err?
  {
    DecodeSlotCases(CheckRunKind.fields[7], entries);
    DecodeRecord(CheckRunKind, entries);
  }
}
