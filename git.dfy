/** Git data of a repository: the tree, blob and reference requests, and the records they
    return, among them the untagged answer to a reference lookup. */
module Git {
  import opened Wrappers
  import opened Json
  import opened Schema
  import Client

  /** `Git`: the git database of one repository. */
  datatype GitApi = GitApi(owner: string, repo: string)

  /** `path`: below the repository's "git" segment. */
  function Path(g: GitApi, more: string): string {
    "/repos/" + g.owner + "/" + g.repo + "/git" + more
  }

  /** The value of the `recursive` query parameter. */
  function RecursiveFlag(recursive: bool): string {
    if recursive then "1" else "0"
  }

  /** `tree`: the tree at a commit, recursively or only its top level. */
  function Tree(g: GitApi, sha: string, recursive: bool): (req: Client.Call)
    ensures req == Client.Call(Client.Get, "/repos/" + g.owner + "/" + g.repo + "/git/trees/" + sha + "?recursive=" + (if recursive then "1" else "0"), Client.NoBody)
  {
    Client.GetCall(Path(g, "/trees/" + sha + "?recursive=" + RecursiveFlag(recursive)))
  }

  /** `blob`. */
  function Blob(g: GitApi, sha: string): (req: Client.Call)
    ensures req == Client.Call(Client.Get, "/repos/" + g.owner + "/" + g.repo + "/git/blobs/" + sha, Client.NoBody)
  {
    Client.GetCall(Path(g, "/blobs/" + sha))
  }

  /** `reference`: the reference is written as given, e.g. "heads/branch". */
  function Reference(g: GitApi, reference: string): (req: Client.Call)
    ensures req == Client.Call(Client.Get, "/repos/" + g.owner + "/" + g.repo + "/git/refs/" + reference, Client.NoBody)
  {
    Client.GetCall(Path(g, "/refs/" + reference))
  }

  /** `delete_reference`. */
  function DeleteReference(g: GitApi, reference: string): (req: Client.Call)
    ensures req == Client.Call(Client.Delete, "/repos/" + g.owner + "/" + g.repo + "/git/refs/" + reference, Client.NoBody)
  {
    Client.DeleteCall(Path(g, "/refs/" + reference))
  }

  /** A tree request ends in "?recursive=" and a flag: "1" for a recursive listing, "0"
      otherwise. */
  lemma TreeUri(g: GitApi, sha: string, recursive: bool)
    ensures Tree(g, sha, recursive).uri ==
      "/repos/" + g.owner + "/" + g.repo + "/git" + "/trees/" + sha + "?recursive=" + (if recursive then "1" else "0")
    ensures Tree(g, sha, recursive).verb == Client.Get
  {
  }

  /** A recursive and a flat tree request of one sha go to different URIs. */
  lemma TreeRecursion(g: GitApi, sha: string)
    ensures Tree(g, sha, true).uri != Tree(g, sha, false).uri
  {
    var base := Path(g, "/trees/" + sha + "?recursive=");
    assert Tree(g, sha, true).uri == base + "1";
    assert Tree(g, sha, false).uri == base + "0";
    assert (base + "1")[|base|] != (base + "0")[|base|];
  }

  /** Reading and deleting a reference address the same URI, with the reference passed through
      unchanged. */
  lemma ReferencePaths(g: GitApi, reference: string)
    ensures Reference(g, reference).uri == DeleteReference(g, reference).uri
    ensures Reference(g, reference).uri == Path(g, "/refs/") + reference
    ensures Reference(g, reference).verb == Client.Get && DeleteReference(g, reference).verb == Client.Delete
  {
    assert Path(g, "/refs/" + reference) == Path(g, "/refs/") + reference;
  }

  /** `GitFile`: size is `None` for directories and url for commits. */
  const GitFileKind := KRec([
    Req("path", KStr), Req("mode", KStr), Req("type", KStr), Opt("size", U64), Req("sha", KStr),
    Opt("url", KStr)])

  /** `TreeData`. */
  const TreeDataKind := KRec([Req("sha", KStr), Req("url", KStr), Req("tree", KList(GitFileKind)),
    Req("truncated", KBool)])

  /** `Blob`: content and encoding are kept as the strings GitHub sent, undecoded. */
  const BlobKind := KRec([Req("content", KStr), Req("encoding", KStr), Req("url", KStr),
    Req("sha", KStr), Opt("size", U64)])

  /** A tree entry may leave out its size and its url, but not its path, mode, type or sha. */
  lemma GitFileOptional(entries: seq<(string, JValue)>)
    ensures "size" !in Keys(entries) && Decode(GitFileKind, JObj(entries)).Ok? ==>
      Decode(GitFileKind, JObj(entries)).value.slots[3] == None
    ensures "url" !in Keys(entries) && Decode(GitFileKind, JObj(entries)).Ok? ==>
      Decode(GitFileKind, JObj(entries)).value.slots[5] == None
    ensures ("path" !in Keys(entries) || "mode" !in Keys(entries) || "type" !in Keys(entries) ||
             "sha" !in Keys(entries)) ==> Decode(GitFileKind, JObj(entries)).Err?
  {
    if "size" !in Keys(entries) { AbsentField(GitFileKind, entries, 3); }
    if "url" !in Keys(entries) { AbsentField(GitFileKind, entries, 5); }
    if "path" !in Keys(entries) { AbsentField(GitFileKind, entries, 0); }
    if "mode" !in Keys(entries) { AbsentField(GitFileKind, entries, 1); }
    if "type" !in Keys(entries) { AbsentField(GitFileKind, entries, 2); }
    if "sha" !in Keys(entries) { AbsentField(GitFileKind, entries, 4); }
  }

  /** A blob's content is read as it was sent, whatever its encoding claims: text that is not
      base64 at all still decodes, and a blob without a size has `None` there. */
  lemma BlobContentRaw(content: string, encoding: string, url: string, sha: string)
    ensures Decode(BlobKind, JObj([("content", JStr(content)), ("encoding", JStr(encoding)),
        ("url", JStr(url)), ("sha", JStr(sha))])) ==
      Ok(VRec([Some(VStr(content)), Some(VStr(encoding)), Some(VStr(url)), Some(VStr(sha)), None]))
  {
    var entries := [("content", JStr(content)), ("encoding", JStr(encoding)), ("url", JStr(url)),
      ("sha", JStr(sha))];
    OccurrencesUnique(entries, 0);
    OccurrencesUnique(entries, 1);
    OccurrencesUnique(entries, 2);
    OccurrencesUnique(entries, 3);
    DecodeSlotCases(BlobKind.fields[4], entries);
    DecodeRecordOf(BlobKind, entries,
      [Some(VStr(content)), Some(VStr(encoding)), Some(VStr(url)), Some(VStr(sha)), None]);
  }

  /** `Object`: what a reference points at; its "type" is read into `object_type`. */
  datatype Object = Object(objectType: string, sha: string, url: string)

  /** `Reference`: "ref" is read into `reference`; `obj` is the `object` field. */
  datatype Ref = Ref(reference: string, url: string, obj: Object)

  const ObjectKind := KRec([Req("type", KStr), Req("sha", KStr), Req("url", KStr)])

  const ReferenceKind := KRec([Req("ref", KStr), Req("url", KStr), Req("object", ObjectKind)])

  /** `GetReferenceResponse`: the reference itself, or the references whose names start with
      the one asked for. */
  datatype GetReferenceResponse = Exact(exact: Ref) | StartWith(refs: seq<Ref>)

  function ObjectOf(slot: Option<Val>): Object {
    if slot.Some? && slot.value.VRec? && |slot.value.slots| == 3 then
      Object(StrOf(slot.value.slots[0]), StrOf(slot.value.slots[1]), StrOf(slot.value.slots[2]))
    else Object("", "", "")
  }

  /** The reference a decoded value holds. */
  function RefOf(v: Val): Ref {
    if v.VRec? && |v.slots| == 3 then Ref(StrOf(v.slots[0]), StrOf(v.slots[1]), ObjectOf(v.slots[2]))
    else Ref("", "", Object("", "", ""))
  }

  function ObjectVal(o: Object): Val {
    VRec([Some(VStr(o.objectType)), Some(VStr(o.sha)), Some(VStr(o.url))])
  }

  function RefVal(r: Ref): (v: Val)
    ensures Conforms(ReferenceKind, v)
  {
    VRec([Some(VStr(r.reference)), Some(VStr(r.url)), Some(ObjectVal(r.obj))])
  }

  /** The JSON object GitHub sends for a reference: "ref", "url" and a nested "object" with
      "type", "sha" and "url". */
  function RefJson(r: Ref): JValue {
    Encode(ReferenceKind, RefVal(r))
  }

  /** The untagged decoding: the variants are tried in declaration order, a single reference
      first and then a list of them; when neither fits the whole value fails. */
  function DecodeGetReferenceResponse(j: JValue): (r: Result<GetReferenceResponse, DecodeError>)
    ensures r.Ok? && r.value.Exact? <==> Decode(ReferenceKind, j).Ok?
    ensures r.Ok? && r.value.Exact? ==> r.value.exact == RefOf(Decode(ReferenceKind, j).value)
    ensures r.Ok? && r.value.StartWith? <==>
      j.JArr? && forall n :: 0 <= n < |j.items| ==> Decode(ReferenceKind, j.items[n]).Ok?
    ensures r.Ok? && r.value.StartWith? ==> (|r.value.refs| == |j.items| &&
      forall n :: 0 <= n < |j.items| ==> r.value.refs[n] == RefOf(Decode(ReferenceKind, j.items[n]).value))
    ensures r.Err? ==> r.error == NoVariantMatches("GetReferenceResponse")
    ensures !j.JObj? && !j.JArr? ==> r.Err?
  {
    DecodeItemsEach(KList(ReferenceKind), if j.JArr? then j.items else []);
    match Decode(ReferenceKind, j)
    case Ok(v) => Ok(Exact(RefOf(v)))
    case Err(_) =>
      match Decode(KList(ReferenceKind), j)
      case Ok(list) =>
        var refs := seq(|list.items|, n requires 0 <= n < |list.items| => RefOf(list.items[n]));
        Ok(StartWith(refs))
      case Err(_) => Err(NoVariantMatches("GetReferenceResponse"))
  }

  /** The references GitHub sends come back out: one object as `Exact`, a list of them as
      `StartWith` in the order sent. */
  lemma GetReferenceRoundTrip(r: Ref, refs: seq<Ref>)
    ensures DecodeGetReferenceResponse(RefJson(r)) == Ok(Exact(r))
    ensures DecodeGetReferenceResponse(JArr(seq(|refs|, n requires 0 <= n < |refs| => RefJson(refs[n])))) ==
      Ok(StartWith(refs))
  {
    RefRoundTrip(r);
    var items := seq(|refs|, n requires 0 <= n < |refs| => RefJson(refs[n]));
    forall n | 0 <= n < |refs| ensures Decode(ReferenceKind, items[n]).Ok? &&
      RefOf(Decode(ReferenceKind, items[n]).value) == refs[n]
    {
      RefRoundTrip(refs[n]);
    }
    var out := DecodeGetReferenceResponse(JArr(items));
    assert out.Ok? && out.value.StartWith?;
    assert out.value.refs == refs;
  }

  lemma RefRoundTrip(r: Ref)
    ensures Decode(ReferenceKind, RefJson(r)) == Ok(RefVal(r))
    ensures RefOf(RefVal(r)) == r
  {
    RefKindsWellFormed();
    RoundTrip(ReferenceKind, RefVal(r));
  }

  lemma RefKindsWellFormed()
    ensures WellFormed(ObjectKind) && WellFormed(ReferenceKind)
  {
  }
}
