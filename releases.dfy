/** Releases of a repository and the assets of a release: their paths, the options a release
    is created or edited with and their builder, and the release and asset records. */
module Releases {
  import opened Wrappers
  import opened Json
  import opened Schema
  import Text
  import Client
  import Users

  /** `Releases`: the releases of one repository. */
  datatype ReleasesApi = ReleasesApi(owner: string, repo: string)

  /** `Releases::path`: the repository's releases, with `more` after. */
  function Path(r: ReleasesApi, more: string): string {
    "/repos/" + r.owner + "/" + r.repo + "/releases" + more
  }

  /** `create`: posts the options to the releases. */
  function Create(r: ReleasesApi, rel: ReleaseOptions): (req: Client.Call)
    ensures req == Client.Call(Client.Post, "/repos/" + r.owner + "/" + r.repo + "/releases", Client.JsonBody(ReleaseOptionsJson(rel)))
  {
    Client.PostCall(Path(r, ""), ReleaseOptionsJson(rel))
  }

  /** `edit`: patches one release with the options. */
  function Edit(r: ReleasesApi, id: Uint64, rel: ReleaseOptions): (req: Client.Call)
    ensures req == Client.Call(Client.Patch, "/repos/" + r.owner + "/" + r.repo + "/releases/" + Text.NatToString(id), Client.JsonBody(ReleaseOptionsJson(rel)))
  {
    Client.PatchCall(Path(r, "/" + Text.NatToString(id)), ReleaseOptionsJson(rel))
  }

  function Delete(r: ReleasesApi, id: Uint64): (req: Client.Call)
    ensures req == Client.Call(Client.Delete, "/repos/" + r.owner + "/" + r.repo + "/releases/" + Text.NatToString(id), Client.NoBody)
  {
    Client.DeleteCall(Path(r, "/" + Text.NatToString(id)))
  }

  function List(r: ReleasesApi): (req: Client.Call)
    ensures req == Client.Call(Client.Get, "/repos/" + r.owner + "/" + r.repo + "/releases", Client.NoBody)
  {
    Client.GetCall(Path(r, ""))
  }

  /** `get`: the operations of one release. */
  function Get(r: ReleasesApi, id: Uint64): (rel: ReleaseRef)
    ensures rel.owner == r.owner && rel.repo == r.repo && rel.id == id
  {
    ReleaseRef(r.owner, r.repo, id)
  }

  /** `ReleaseRef`: one release. */
  datatype ReleaseRef = ReleaseRef(owner: string, repo: string, id: Uint64)

  /** `ReleaseRef::path`: the release, with `more` after. */
  function RefPath(rel: ReleaseRef, more: string): string {
    "/repos/" + rel.owner + "/" + rel.repo + "/releases/" + Text.NatToString(rel.id) + more
  }

  function RefGet(rel: ReleaseRef): (req: Client.Call)
    ensures req == Client.Call(Client.Get, "/repos/" + rel.owner + "/" + rel.repo + "/releases/" + Text.NatToString(rel.id), Client.NoBody)
  {
    Client.GetCall(RefPath(rel, ""))
  }

  /** `assets`: the assets of the release. */
  function Assets(rel: ReleaseRef): (a: AssetsApi)
    ensures a.owner == rel.owner && a.repo == rel.repo && a.releaseId == rel.id
  {
    AssetsApi(rel.owner, rel.repo, rel.id)
  }

  /** `Assets`: the assets of one release. */
  datatype AssetsApi = AssetsApi(owner: string, repo: string, releaseId: Uint64)

  /** `Assets::path`: the release's assets, with `more` after. */
  function AssetsPath(a: AssetsApi, more: string): string {
    "/repos/" + a.owner + "/" + a.repo + "/releases/" + Text.NatToString(a.releaseId) + "/assets" + more
  }

  function AssetGet(a: AssetsApi, id: Uint64): (req: Client.Call)
    ensures req == Client.Call(Client.Get, "/repos/" + a.owner + "/" + a.repo + "/releases/" + Text.NatToString(a.releaseId) + "/assets/" + Text.NatToString(id), Client.NoBody)
  {
    Client.GetCall(AssetsPath(a, "/" + Text.NatToString(id)))
  }

  function AssetDelete(a: AssetsApi, id: Uint64): (req: Client.Call)
    ensures req == Client.Call(Client.Delete, "/repos/" + a.owner + "/" + a.repo + "/releases/" + Text.NatToString(a.releaseId) + "/assets/" + Text.NatToString(id), Client.NoBody)
  {
    Client.DeleteCall(AssetsPath(a, "/" + Text.NatToString(id)))
  }

  function AssetList(a: AssetsApi): (req: Client.Call)
    ensures req == Client.Call(Client.Get, "/repos/" + a.owner + "/" + a.repo + "/releases/" + Text.NatToString(a.releaseId) + "/assets", Client.NoBody)
  {
    Client.GetCall(AssetsPath(a, ""))
  }

  /** A release is created and listed at the releases; it is edited, deleted and read at its
      id below them, all three at one uri. */
  lemma ReleaseCalls(r: ReleasesApi, id: Uint64, rel: ReleaseOptions)
    ensures Create(r, rel) == Client.Call(Client.Post, List(r).uri, Client.JsonBody(ReleaseOptionsJson(rel)))
    ensures List(r).uri == "/repos/" + r.owner + "/" + r.repo + "/releases"
    ensures Edit(r, id, rel).uri == Delete(r, id).uri == RefGet(Get(r, id)).uri == List(r).uri + "/" + Text.NatToString(id)
    ensures Edit(r, id, rel).verb == Client.Patch && Delete(r, id).verb == Client.Delete && RefGet(Get(r, id)).verb == Client.Get
  {
    var base, n := "/repos/" + r.owner + "/" + r.repo + "/releases", Text.NatToString(id);
    assert Path(r, "/" + n) == base + "/" + n;
    assert RefPath(Get(r, id), "") == base + "/" + n;
  }

  /** A release's assets are listed below the release, and one asset is read and deleted at
      its id below them. */
  lemma AssetCalls(rel: ReleaseRef, id: Uint64)
    ensures AssetList(Assets(rel)).uri == RefGet(rel).uri + "/assets"
    ensures AssetGet(Assets(rel), id).uri == AssetDelete(Assets(rel), id).uri ==
      AssetList(Assets(rel)).uri + "/" + Text.NatToString(id)
    ensures AssetGet(Assets(rel), id).verb == Client.Get && AssetDelete(Assets(rel), id).verb == Client.Delete
  {
    var base := "/repos/" + rel.owner + "/" + rel.repo + "/releases/" + Text.NatToString(rel.id);
    assert RefGet(rel).uri == base;
    assert AssetList(Assets(rel)).uri == base + "/assets";
    assert AssetGet(Assets(rel), id).uri == base + "/assets" + "/" + Text.NatToString(id);
  }

  /** `ReleaseOptions`: the tag is always written, every other field only when set. */
  datatype ReleaseOptions = ReleaseOptions(
    tagName: string,
    targetCommitish: Option<string>,
    name: Option<string>,
    body: Option<string>,
    draft: Option<bool>,
    prerelease: Option<bool>)

  const ReleaseOptionsKind := KRec([
    Req("tag_name", KStr), OptSkip("target_commitish", KStr), OptSkip("name", KStr), OptSkip("body", KStr),
    OptSkip("draft", KBool), OptSkip("prerelease", KBool)])

  function ReleaseOptionsVal(o: ReleaseOptions): (v: Val)
    ensures Conforms(ReleaseOptionsKind, v)
  {
    VRec([Some(VStr(o.tagName)), OptStrVal(o.targetCommitish), OptStrVal(o.name), OptStrVal(o.body),
      OptBoolVal(o.draft), OptBoolVal(o.prerelease)])
  }

  /** `serde_json::to_string(&rel)`: the body `create` and `edit` send. */
  function ReleaseOptionsJson(o: ReleaseOptions): JValue {
    Encode(ReleaseOptionsKind, ReleaseOptionsVal(o))
  }

  /** The options write "tag_name", then each set field under its own key, in declaration
      order; the commit-ish goes under "target_commitish". */
  lemma ReleaseOptionsJsonFields(o: ReleaseOptions)
    ensures ReleaseOptionsJson(o) == JObj([("tag_name", JStr(o.tagName))] +
      OptEntry("target_commitish", o.targetCommitish) + OptEntry("name", o.name) + OptEntry("body", o.body) +
      OptBoolEntry("draft", o.draft) + OptBoolEntry("prerelease", o.prerelease))
  {
    var k, v := ReleaseOptionsKind, ReleaseOptionsVal(o);
    EncodeSix(k, v.slots, [("tag_name", JStr(o.tagName))], OptEntry("target_commitish", o.targetCommitish),
      OptEntry("name", o.name), OptEntry("body", o.body), OptBoolEntry("draft", o.draft),
      OptBoolEntry("prerelease", o.prerelease));
  }

  /** What a server reads back from the body is the options that were sent. */
  lemma ReleaseOptionsRoundTrip(o: ReleaseOptions)
    ensures Decode(ReleaseOptionsKind, ReleaseOptionsJson(o)) == Ok(ReleaseOptionsVal(o))
  {
    ReleaseOptionsWellFormed();
    RoundTrip(ReleaseOptionsKind, ReleaseOptionsVal(o));
  }

  lemma ReleaseOptionsWellFormed()
    ensures WellFormed(ReleaseOptionsKind)
  {
  }

  /** `ReleaseOptionsBuilder`: the tag, and each optional field as set so far. */
  class ReleaseOptionsBuilder {
    var tag: string
    var commitish: Option<string>
    var name: Option<string>
    var body: Option<string>
    var draft: Option<bool>
    var prerelease: Option<bool>

    /** `ReleaseOptionsBuilder::new`: the tag, and nothing else set. */
    constructor (tag: string)
      ensures this.tag == tag && commitish == None && name == None && body == None
      ensures draft == None && prerelease == None
    {
      this.tag := tag;
      commitish := None;
      name := None;
      body := None;
      draft := None;
      prerelease := None;
    }

    method Commitish(commit: string)
      modifies this
      ensures commitish == Some(commit)
      ensures tag == old(tag) && name == old(name) && body == old(body)
      ensures draft == old(draft) && prerelease == old(prerelease)
    {
      commitish := Some(commit);
    }

    method Name(name: string)
      modifies this
      ensures this.name == Some(name)
      ensures tag == old(tag) && commitish == old(commitish) && body == old(body)
      ensures draft == old(draft) && prerelease == old(prerelease)
    {
      this.name := Some(name);
    }

    method Body(body: string)
      modifies this
      ensures this.body == Some(body)
      ensures tag == old(tag) && commitish == old(commitish) && name == old(name)
      ensures draft == old(draft) && prerelease == old(prerelease)
    {
      this.body := Some(body);
    }

    method Draft(draft: bool)
      modifies this
      ensures this.draft == Some(draft)
      ensures tag == old(tag) && commitish == old(commitish) && name == old(name)
      ensures body == old(body) && prerelease == old(prerelease)
    {
      this.draft := Some(draft);
    }

    method Prerelease(pre: bool)
      modifies this
      ensures prerelease == Some(pre)
      ensures tag == old(tag) && commitish == old(commitish) && name == old(name)
      ensures body == old(body) && draft == old(draft)
    {
      prerelease := Some(pre);
    }

    /** `build`: every field passed through, the commit-ish as the target commit-ish. */
    function Build(): (o: ReleaseOptions)
      reads this
      ensures o.tagName == tag && o.targetCommitish == commitish && o.name == name
      ensures o.body == body && o.draft == draft && o.prerelease == prerelease
    {
      ReleaseOptions(tag, commitish, name, body, draft, prerelease)
    }
  }

  /** A release built from a tag and a commit-ish only is sent as the two keys "tag_name" and
      "target_commitish", and nothing else. */
  method TagAndCommitish(tag: string, commit: string) returns (body: JValue)
    ensures body == JObj([("tag_name", JStr(tag)), ("target_commitish", JStr(commit))])
  {
    var b := new ReleaseOptionsBuilder(tag);
    b.Commitish(commit);
    var o := b.Build();
    ReleaseOptionsJsonFields(o);
    body := ReleaseOptionsJson(o);
  }

  /** `Asset`: only the label may be missing. */
  const AssetKind := KRec([
    Req("url", KStr), Req("browser_download_url", KStr), Req("id", U64), Req("name", KStr), Opt("label", KStr),
    Req("state", KStr), Req("content_type", KStr), Req("size", U64), Req("download_count", U64),
    Req("created_at", KStr), Req("updated_at", KStr), Req("uploader", Users.UserKind)])

  /** `Release`: every field required, the name and the body included. */
  const ReleaseKind := KRec([
    Req("url", KStr), Req("html_url", KStr), Req("assets_url", KStr), Req("upload_url", KStr),
    Req("tarball_url", KStr), Req("zipball_url", KStr), Req("id", U64), Req("tag_name", KStr),
    Req("target_commitish", KStr), Req("name", KStr), Req("body", KStr), Req("draft", KBool),
    Req("prerelease", KBool), Req("created_at", KStr), Req("published_at", KStr), Req("author", Users.UserKind),
    Req("assets", KList(AssetKind))])

  lemma ReleaseOptionalExactly()
    ensures OptionalExactly(AssetKind, {"label"}) && OptionalExactly(ReleaseKind, {})
  {
  }

  /** An asset missing its label, or giving it as `null`, reads it as `None`; one missing any
      other field does not decode. */
  lemma AssetFields(entries: seq<(string, JValue)>, n: nat)
    requires n < |AssetKind.fields|
    ensures AssetKind.fields[n].wire !in Keys(entries) && n != 4 ==> Decode(AssetKind, JObj(entries)).Err?
    ensures n == 4 && ("label" !in Keys(entries) || Occurrences(entries, "label") == Once(JNull)) ==>
      Decode(AssetKind, JObj(entries)).Ok? ==> Decode(AssetKind, JObj(entries)).value.slots[4] == None
  {
    if AssetKind.fields[n].wire !in Keys(entries) {
      AbsentField(AssetKind, entries, n);
    } else if n == 4 && Occurrences(entries, "label") == Once(JNull) {
      NullField(AssetKind, entries, 4);
    }
  }

  /** A release whose name or body is missing or `null` does not decode: both are plain
      strings. */
  lemma ReleaseNameBody(entries: seq<(string, JValue)>, n: nat)
    requires n == 9 || n == 10
    requires ReleaseKind.fields[n].wire !in Keys(entries) || Occurrences(entries, ReleaseKind.fields[n].wire) == Once(JNull)
    ensures Decode(ReleaseKind, JObj(entries)).Err?
  {
    if ReleaseKind.fields[n].wire !in Keys(entries) {
      AbsentField(ReleaseKind, entries, n);
    } else {
      NullField(ReleaseKind, entries, n);
    }
  }
}
