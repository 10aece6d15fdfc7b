/** The contents API: the URL of a path in a repository, the bodies that create, update and
    delete a file, and the records a path's contents decode into. */
module Content {
  import opened Wrappers
  import opened Json
  import opened Schema
  import Bytes
  import Base64
  import UrlEncoding
  import Client

  /** `Content`: the contents of one repository. */
  datatype ContentApi = ContentApi(owner: string, repo: string)

  /** The contents URI of a location before any `ref` query. */
  function LocationPath(c: ContentApi, location: string): string {
    "/repos/" + c.owner + "/" + c.repo + "/contents" + UrlEncoding.PathEncode(location)
  }

  /** `path`: the percent-encoded location under the repository's contents, with a `ref` query
      exactly when a ref is given. */
  function Path(c: ContentApi, location: string, ref: string): (p: string)
    ensures |LocationPath(c, location)| <= |p| && p[..|LocationPath(c, location)|] == LocationPath(c, location)
    ensures ref == "" <==> p == LocationPath(c, location)
    ensures ref != "" ==> p[|LocationPath(c, location)|..] == "?ref=" + ref
  {
    var path := LocationPath(c, location);
    if ref != "" then path + "?ref=" + ref else path
  }

  /** The location cannot end the path early: its encoding holds no '?' or '#', so the only
      query of the URI is the `ref` one. */
  lemma LocationIsInert(c: ContentApi, location: string, ref: string)
    ensures var base := "/repos/" + c.owner + "/" + c.repo + "/contents";
      var p := Path(c, location, ref);
      forall i :: |base| <= i < |LocationPath(c, location)| ==> p[i] != '?' && p[i] != '#'
  {
    var base := "/repos/" + c.owner + "/" + c.repo + "/contents";
    var enc := UrlEncoding.PathEncode(location);
    UrlEncoding.PathEncodeIsInert(Bytes.Utf8(location));
    var p := Path(c, location, ref);
    assert forall i :: |base| <= i < |base + enc| ==> p[i] == enc[i - |base|];
  }

  /** Different refs of one location give different URIs. */
  lemma PathSeparatesRefs(c: ContentApi, location: string, ref1: string, ref2: string)
    requires Path(c, location, ref1) == Path(c, location, ref2)
    ensures ref1 == ref2
  {
    var n := |LocationPath(c, location)|;
    if ref1 != "" && ref2 != "" {
      assert ("?ref=" + ref1)[5..] == ref1;
      assert ("?ref=" + ref2)[5..] == ref2;
    }
  }

  /** `get` and `file`: one request for the location's contents. */
  function Get(c: ContentApi, location: string, ref: string): (call: Client.Call)
    ensures call == Client.GetCall(Path(c, location, ref))
  {
    Client.GetCall(Path(c, location, ref))
  }

  /** `iter`: the first request of the stream over a directory's items. */
  function Iter(c: ContentApi, location: string, ref: string): (call: Client.Call)
    ensures call.verb == Client.Get && call.uri == Path(c, location, ref)
  {
    Client.GetCall(Path(c, location, ref))
  }

  /** `root`: the stream over the directory "/". */
  function Root(c: ContentApi, ref: string): (call: Client.Call)
    ensures call == Iter(c, "/", ref)
  {
    Iter(c, "/", ref)
  }

  /** The root directory is the contents URI with a trailing '/'. */
  lemma RootPath(c: ContentApi)
    ensures Root(c, "").uri == "/repos/" + c.owner + "/" + c.repo + "/contents/"
  {
    assert Bytes.Utf8("/") == [0x2F];
    assert UrlEncoding.PathEncodeBytes([0x2F]) == "/";
  }

  /** `NewFile`: the body of a create, update or delete. */
  datatype NewFile = NewFile(content: string, message: string, sha: Option<string>)

  /** `content` is skipped when empty and `sha` when `None`; `message` is always written. */
  const NewFileKind := KRec([
    Field("content", KStr, false, IfEmpty),
    Req("message", KStr),
    OptSkip("sha", KStr)])

  function NewFileVal(f: NewFile): Val {
    VRec([Some(VStr(f.content)), Some(VStr(f.message)), OptStrVal(f.sha)])
  }

  /** The JSON `serde_json` writes for the body. */
  function NewFileJson(f: NewFile): JValue {
    Encode(NewFileKind, NewFileVal(f))
  }

  /** The body is content (unless it is empty), message, then sha (unless it is `None`). */
  lemma NewFileJsonFields(f: NewFile)
    ensures NewFileJson(f) ==
      JObj((if f.content == "" then [] else [("content", JStr(f.content))]) +
           [("message", JStr(f.message))] + OptEntry("sha", f.sha))
  {
    var k, v := NewFileKind, NewFileVal(f);
    var e0 := if f.content == "" then [] else [("content", JStr(f.content))];
    var e2 := OptEntry("sha", f.sha);
    assert EncodeSlot(k.fields[0], v.slots[0]) == e0;
    assert EncodeSlot(k.fields[1], v.slots[1]) == [("message", JStr(f.message))];
    assert EncodeSlot(k.fields[2], v.slots[2]) == e2;
    assert EncodeFields(k, v.slots, 3) == [];
    assert EncodeFields(k, v.slots, 2) == e2;
    assert EncodeFields(k, v.slots, 1) == [("message", JStr(f.message))] + e2;
  }

  /** The message is in every body; content is there exactly when it is not empty, and sha
      exactly when it is given. */
  lemma NewFileKeys(f: NewFile)
    ensures NewFileJson(f).JObj? && ("message", JStr(f.message)) in NewFileJson(f).entries
    ensures "content" in Keys(NewFileJson(f).entries) <==> f.content != ""
    ensures "sha" in Keys(NewFileJson(f).entries) <==> f.sha.Some?
  {
    NewFileJsonFields(f);
    var e0: seq<(string, JValue)> := if f.content == "" then [] else [("content", JStr(f.content))];
    var es := e0 + [("message", JStr(f.message))] + OptEntry("sha", f.sha);
    assert es[|e0|] == ("message", JStr(f.message));
    if f.content != "" {
      assert Keys(es)[0] == "content";
    }
    if f.sha.Some? {
      assert Keys(es)[|es| - 1] == "sha";
    }
  }

  /** `create`: a PUT of the bytes in base64 with no sha. */
  function Create(c: ContentApi, location: string, content: seq<Bytes.byte>, message: string): (call: Client.Call)
    ensures call == Client.PutCall(Path(c, location, ""), NewFileJson(NewFile(Base64.Encode(content), message, None)))
  {
    Client.PutCall(Path(c, location, ""), NewFileJson(NewFile(Base64.Encode(content), message, None)))
  }

  /** `update`: a PUT of the bytes in base64 with the sha of the blob replaced. */
  function Update(c: ContentApi, location: string, content: seq<Bytes.byte>, message: string, sha: string): (call: Client.Call)
    ensures call == Client.PutCall(Path(c, location, ""), NewFileJson(NewFile(Base64.Encode(content), message, Some(sha))))
  {
    Client.PutCall(Path(c, location, ""), NewFileJson(NewFile(Base64.Encode(content), message, Some(sha))))
  }

  /** `delete`: a DELETE that carries a body, with empty content and the sha. */
  function Delete(c: ContentApi, location: string, message: string, sha: string): (call: Client.Call)
    ensures call == Client.Call(Client.Delete, Path(c, location, ""), Client.JsonBody(NewFileJson(NewFile("", message, Some(sha)))))
  {
    Client.Call(Client.Delete, Path(c, location, ""), Client.JsonBody(NewFileJson(NewFile("", message, Some(sha)))))
  }

  /** The body of a create begins with the encoding of the bytes (which decodes back to them:
      `DecodedContentsRoundTrip`); bytes that are empty send no content at all. */
  lemma CreateCarriesContent(c: ContentApi, location: string, content: seq<Bytes.byte>, message: string)
    ensures var body := Create(c, location, content, message).body.json;
      body.JObj? &&
      (|content| == 0 ==> body == JObj([("message", JStr(message))])) &&
      (|content| > 0 ==> body.entries[0] == ("content", JStr(Base64.Encode(content))))
  {
    var e := Base64.Encode(content);
    NewFileJsonFields(NewFile(e, message, None));
    var m: seq<(string, JValue)> := [("message", JStr(message))];
    if |content| == 0 {
      assert e == "";
      assert [] + m + [] == m;
    } else {
      assert e != "";
      assert ([("content", JStr(e))] + m + [])[0] == ("content", JStr(e));
    }
  }

  /** An update sends the same content as a create, and the sha besides. */
  lemma UpdateCarriesSha(c: ContentApi, location: string, content: seq<Bytes.byte>, message: string, sha: string)
    ensures var body := Update(c, location, content, message, sha).body.json;
      body.JObj? && |body.entries| > 0 && body.entries[|body.entries| - 1] == ("sha", JStr(sha))
    ensures Create(c, location, content, message).body.json.entries + [("sha", JStr(sha))] ==
      Update(c, location, content, message, sha).body.json.entries
  {
    NewFileJsonFields(NewFile(Base64.Encode(content), message, None));
    NewFileJsonFields(NewFile(Base64.Encode(content), message, Some(sha)));
  }

  /** A delete's body is the message and the sha, with no content. */
  lemma DeleteBody(c: ContentApi, location: string, message: string, sha: string)
    ensures Delete(c, location, message, sha).body.json == JObj([("message", JStr(message)), ("sha", JStr(sha))])
  {
    NewFileJsonFields(NewFile("", message, Some(sha)));
  }

  /** `Encoding`: only "base64" exists. */
  datatype Encoding = Base64Encoding

  const EncodingTags := ["base64"]

  function ParseEncoding(t: string): (r: Option<Encoding>)
    ensures r.Some? <==> t == "base64"
  {
    if t == "base64" then Some(Base64Encoding) else None
  }

  /** `Links`. */
  const LinksKind := KRec([Req("git", KStr), Req("self", KStr), Req("html", KStr)])

  /** `File`: its content is decoded from base64 on arrival. */
  const FileKind := KRec([
    Req("encoding", KTag(EncodingTags)), Req("size", U32), Req("name", KStr), Req("path", KStr),
    Req("content", KBase64), Req("sha", KStr), Req("url", KStr), Req("git_url", KStr),
    Req("html_url", KStr), Req("download_url", KStr), Req("_links", LinksKind)])

  /** `DirectoryItem`: the only record here whose type is a plain string. */
  const DirectoryItemKind := KRec([
    Req("type", KStr), Req("size", U32), Req("name", KStr), Req("path", KStr), Req("sha", KStr),
    Req("url", KStr), Req("git_url", KStr), Req("html_url", KStr), Opt("download_url", KStr),
    Req("_links", LinksKind)])

  const SymlinkKind := KRec([
    Req("target", KStr), Req("size", U32), Req("name", KStr), Req("path", KStr), Req("sha", KStr),
    Req("url", KStr), Req("git_url", KStr), Req("html_url", KStr), Req("download_url", KStr),
    Req("_links", LinksKind)])

  const SubmoduleKind := KRec([
    Req("submodule_git_url", KStr), Req("size", U32), Req("name", KStr), Req("path", KStr),
    Req("sha", KStr), Req("url", KStr), Req("git_url", KStr), Req("html_url", KStr),
    Opt("download_url", KStr), Req("_links", LinksKind)])

  /** `download_url` is the one optional field of `DirectoryItem` and `Submodule`, and `File`
      and `Symlink` have none. */
  lemma DownloadUrlOptionality()
    ensures OptionalExactly(FileKind, {}) && OptionalExactly(SymlinkKind, {})
    ensures OptionalExactly(DirectoryItemKind, {"download_url"})
    ensures OptionalExactly(SubmoduleKind, {"download_url"})
  {
  }

  /** Without a download URL a file or a symlink fails to decode, while a directory item or a
      submodule reads it as `None`. */
  lemma MissingDownloadUrl(entries: seq<(string, JValue)>)
    requires "download_url" !in Keys(entries)
    ensures Decode(FileKind, JObj(entries)).Err? && Decode(SymlinkKind, JObj(entries)).Err?
    ensures Decode(DirectoryItemKind, JObj(entries)).Ok? ==>
      Decode(DirectoryItemKind, JObj(entries)).value.slots[8] == None
    ensures Decode(SubmoduleKind, JObj(entries)).Ok? ==>
      Decode(SubmoduleKind, JObj(entries)).value.slots[8] == None
  {
    AbsentField(FileKind, entries, 9);
    AbsentField(SymlinkKind, entries, 8);
    AbsentField(DirectoryItemKind, entries, 8);
    AbsentField(SubmoduleKind, entries, 8);
  }

  /** A file whose encoding is anything but "base64" does not decode. */
  lemma FileEncodingIsBase64(entries: seq<(string, JValue)>, t: string)
    requires Occurrences(entries, "encoding") == Once(JStr(t)) && t != "base64"
    ensures Decode(FileKind, JObj(entries)).Err?
  {
    DecodeSlotCases(FileKind.fields[0], entries);
    DecodeRecord(FileKind, entries);
  }

  /** `DecodedContents`: the text of `content` with every newline dropped, then decoded
      strictly. */
  function DecodedContents(text: string): (r: Result<seq<Bytes.byte>, DecodeError>)
    ensures r.Ok? <==> Base64.DecodeWrapped(text).Some?
    ensures r.Ok? ==> Base64.RemoveNewlines(text) == Base64.Encode(r.value)
    ensures Decode(KBase64, JStr(text)) == if r.Ok? then Ok(VBytes(r.value)) else Err(InvalidValue)
  {
    var bytes := Base64.DecodeWrapped(text);
    if bytes.Some? then
      Base64.DecodeWrappedIff(text, bytes.value);
      Ok(bytes.value)
    else Err(InvalidValue)
  }

  /** Bytes base64-encoded and wrapped at any width, or with newlines put in anywhere, decode
      to those same bytes. */
  lemma DecodedContentsRoundTrip(content: seq<Bytes.byte>, width: nat, i: nat)
    requires width > 0
    ensures DecodedContents(Base64.Wrap(Base64.Encode(content), width)) == Ok(content)
    ensures var t := Base64.Encode(content);
      i <= |t| ==> DecodedContents(t[..i] + "\n" + t[i..]) == Ok(content)
  {
    Base64.DecodeWrappedEncoding(content, width);
    var t := Base64.Encode(content);
    if i <= |t| {
      Base64.DecodeWrappedOfEncode(content);
      Base64.DecodeWithNewline(t, i, content);
    }
  }

  /** What does not decode: text whose length without newlines is not a multiple of four, and
      text holding a carriage return, a space or any other character outside the alphabet. */
  lemma DecodedContentsRejects(text: string, c: char)
    ensures |Base64.RemoveNewlines(text)| % 4 != 0 ==> DecodedContents(text).Err?
    ensures c in text && c != '\n' && c != '=' && !Base64.IsSymbol(c) ==> DecodedContents(text).Err?
  {
    if DecodedContents(text).Ok? {
      Base64.EncodeLength(DecodedContents(text).value);
    }
    if c in text && c != '\n' && c != '=' && !Base64.IsSymbol(c) {
      Base64.DecodeWrappedRejects(text, c);
    }
  }

  /** `Contents`: a file, a symlink or a submodule, by the "type" key. */
  datatype Contents = File(file: Val) | Symlink(symlink: Val) | Submodule(submodule: Val)

  function ContentsTag(c: Contents): string {
    match c
    case File(_) => "file"
    case Symlink(_) => "symlink"
    case Submodule(_) => "submodule"
  }

  const ContentsTags := ["file", "symlink", "submodule"]

  /** The `"type"` key picks the variant and the rest of the object is that variant's record;
      no variant has a field called "type", so the tag is ignored while reading it. */
  function DecodeContents(j: JValue): (r: Result<Contents, DecodeError>)
    ensures r.Ok? ==> j.JObj? && Occurrences(j.entries, "type") == Once(JStr(ContentsTag(r.value)))
    ensures j.JObj? && Occurrences(j.entries, "type").Absent? ==> r == Err(MissingField("type"))
    ensures j.JObj? && Occurrences(j.entries, "type") == Once(JStr("file")) ==>
      (r.Ok? <==> Decode(FileKind, j).Ok?)
    ensures j.JObj? && Occurrences(j.entries, "type") == Once(JStr("symlink")) ==>
      (r.Ok? <==> Decode(SymlinkKind, j).Ok?)
    ensures j.JObj? && Occurrences(j.entries, "type") == Once(JStr("submodule")) ==>
      (r.Ok? <==> Decode(SubmoduleKind, j).Ok?)
    ensures (j.JObj? && Occurrences(j.entries, "type").Once? && Occurrences(j.entries, "type").value.JStr? &&
             Occurrences(j.entries, "type").value.s !in ContentsTags) ==>
      r == Err(UnknownVariant(Occurrences(j.entries, "type").value.s))
  {
    if !j.JObj? then Err(InvalidType)
    else
      match Occurrences(j.entries, "type")
      case Absent => Err(MissingField("type"))
      case Repeated => Err(DuplicateField("type"))
      case Once(tag) =>
        if !tag.JStr? then Err(InvalidType)
        else if tag.s == "file" then
          var v :- Decode(FileKind, j);
          Ok(File(v))
        else if tag.s == "symlink" then
          var v :- Decode(SymlinkKind, j);
          Ok(Symlink(v))
        else if tag.s == "submodule" then
          var v :- Decode(SubmoduleKind, j);
          Ok(Submodule(v))
        else Err(UnknownVariant(tag.s))
  }
}
