/** Gists: the requests on one gist and on the lists of gists, the options that create or edit a
    gist (built from a map of file names to texts), the list options, and the gist records. */
module Gists {
  import opened Wrappers
  import opened Json
  import opened Schema
  import StringOrder
  import QueryParams
  import UrlEncoding
  import Client
  import Users

  /** `Gists::path`: everything below "/gists". */
  function Path(more: string): string {
    "/gists" + more
  }

  /** `star`: a PUT with an empty body. */
  function Star(id: string): (req: Client.Call)
    ensures req == Client.Call(Client.Put, "/gists/" + id + "/star", Client.EmptyBody)
  {
    Client.Call(Client.Put, Path("/" + id + "/star"), Client.EmptyBody)
  }

  function Unstar(id: string): (req: Client.Call)
    ensures req == Client.Call(Client.Delete, "/gists/" + id + "/star", Client.NoBody)
  {
    Client.DeleteCall(Path("/" + id + "/star"))
  }

  /** `fork`: a POST with an empty body. */
  function Fork(id: string): (req: Client.Call)
    ensures req == Client.Call(Client.Post, "/gists/" + id + "/forks", Client.EmptyBody)
  {
    Client.Call(Client.Post, Path("/" + id + "/forks"), Client.EmptyBody)
  }

  function Forks(id: string): (req: Client.Call)
    ensures req == Client.Call(Client.Get, "/gists/" + id + "/forks", Client.NoBody)
  {
    Client.GetCall(Path("/" + id + "/forks"))
  }

  function Delete(id: string): (req: Client.Call)
    ensures req == Client.Call(Client.Delete, "/gists/" + id, Client.NoBody)
  {
    Client.DeleteCall(Path("/" + id))
  }

  function Get(id: string): (req: Client.Call)
    ensures req == Client.Call(Client.Get, "/gists/" + id, Client.NoBody)
  {
    Client.GetCall(Path("/" + id))
  }

  /** `getrev`: one revision of a gist. */
  function GetRev(id: string, sha: string): (req: Client.Call)
    ensures req == Client.Call(Client.Get, "/gists/" + id + "/" + sha, Client.NoBody)
  {
    Client.GetCall(Path("/" + id + "/" + sha))
  }

  function Public(): (req: Client.Call)
    ensures req == Client.Call(Client.Get, "/gists/public", Client.NoBody)
  {
    Client.GetCall(Path("/public"))
  }

  function Starred(): (req: Client.Call)
    ensures req == Client.Call(Client.Get, "/gists/starred", Client.NoBody)
  {
    Client.GetCall(Path("/starred"))
  }

  function Create(o: GistOptions): (req: Client.Call)
    ensures req == Client.Call(Client.Post, "/gists", Client.JsonBody(GistOptionsJson(o)))
  {
    Client.PostCall(Path(""), GistOptionsJson(o))
  }

  function Edit(id: string, o: GistOptions): (req: Client.Call)
    ensures req == Client.Call(Client.Patch, "/gists/" + id, Client.JsonBody(GistOptionsJson(o)))
  {
    Client.PatchCall(Path("/" + id), GistOptionsJson(o))
  }

  /** `Gists::list`: "/gists", with '?' and the query only when an option is set. */
  function List(options: QueryParams.Params): (req: Client.Call)
    ensures req.verb == Client.Get && req.body == Client.NoBody
    ensures QueryParams.Serialize(options).None? ==> req.uri == "/gists"
    ensures QueryParams.Serialize(options).Some? ==> req.uri == "/gists" + "?" + QueryParams.Serialize(options).value
  {
    Client.GetCall(QueryParams.WithQuery(Path(""), options))
  }

  /** `UserGists::list`: the gists of one user. */
  function UserList(owner: string, options: QueryParams.Params): (req: Client.Call)
    ensures req.verb == Client.Get && req.body == Client.NoBody
    ensures QueryParams.Serialize(options).None? ==> req.uri == "/users/" + owner + "/gists"
    ensures QueryParams.Serialize(options).Some? ==> req.uri == "/users/" + owner + "/gists" + "?" + QueryParams.Serialize(options).value
  {
    Client.GetCall(QueryParams.WithQuery("/users/" + owner + "/gists", options))
  }

  /** Starring and unstarring share a uri, as do forking and listing forks; a revision sits
      below the gist; only star and fork send an empty body rather than none. */
  lemma GistCalls(id: string, sha: string, o: GistOptions)
    ensures Star(id).uri == Unstar(id).uri == "/gists/" + id + "/star"
    ensures Fork(id).uri == Forks(id).uri == "/gists/" + id + "/forks"
    ensures GetRev(id, sha).uri == Get(id).uri + "/" + sha
    ensures Get(id).uri == Delete(id).uri == Edit(id, o).uri == "/gists/" + id
    ensures Star(id).verb == Client.Put && Unstar(id).verb == Client.Delete
    ensures Fork(id).verb == Client.Post && Forks(id).verb == Client.Get
    ensures Star(id).body == Fork(id).body == Client.EmptyBody
    ensures Create(o).uri == "/gists" && Create(o).verb == Client.Post && Edit(id, o).verb == Client.Patch
    ensures Public().uri == "/gists/public" && Starred().uri == "/gists/starred"
  {
  }

  /** Without options the list uris are the bare paths. */
  lemma ListUrisDefault(owner: string)
    ensures List([]).uri == "/gists"
    ensures UserList(owner, []).uri == "/users/" + owner + "/gists"
  {
  }

  /** With since set, the list uris are the paths, '?' and the since pair. */
  lemma ListUriSince(timestamp: string)
    ensures List(Since(timestamp)).uri == "/gists?" + UrlEncoding.FormPair("since", timestamp)
  {
    var p, q := Since(timestamp), UrlEncoding.FormPair("since", timestamp);
    ListOptionsSerialize(timestamp);
    assert QueryParams.Serialize(p) == Some(q);
    var gists := "/gists";
    assert Path("") == gists;
    assert List(p).uri == gists + "?" + q;
    assert gists + "?" == "/gists?";
  }

  /** A user's gists since a time: the same one pair after the user's gists. */
  lemma UserListUriSince(owner: string, timestamp: string)
    ensures UserList(owner, Since(timestamp)).uri == "/users/" + owner + "/gists?" + UrlEncoding.FormPair("since", timestamp)
  {
    var p, q := Since(timestamp), UrlEncoding.FormPair("since", timestamp);
    ListOptionsSerialize(timestamp);
    assert QueryParams.Serialize(p) == Some(q);
    var users := "/users/" + owner + "/gists";
    assert UserList(owner, p).uri == users + "?" + q;
    assert users + "?" == "/users/" + owner + "/gists?";
  }

  /** `GistListOptions::since`: exactly one parameter, since. */
  function Since(timestamp: string): (p: QueryParams.Params)
    ensures QueryParams.Valid(p) && |p| == 1
    ensures QueryParams.Lookup(p, "since") == Some(timestamp)
  {
    QueryParams.Insert([], "since", timestamp)
  }

  /** The default list options send nothing; `since` sends its one pair. */
  lemma ListOptionsSerialize(timestamp: string)
    ensures QueryParams.Serialize([]) == None
    ensures QueryParams.Serialize(Since(timestamp)) == Some(UrlEncoding.FormPair("since", timestamp))
  {
    QueryParams.SerializeOne("since", timestamp);
  }

  /** `Content`: one file of a gist request; the file name is written only when set. */
  datatype Content = Content(filename: Option<string>, content: string)

  const ContentKind := KRec([OptSkip("filename", KStr), Req("content", KStr)])

  function ContentVal(c: Content): Val {
    VRec([OptStrVal(c.filename), Some(VStr(c.content))])
  }

  /** The object a content writes. */
  function ContentObject(c: Content): JValue {
    JObj(OptEntry("filename", c.filename) + [("content", JStr(c.content))])
  }

  /** A content is written as its optional file name, then its text. */
  lemma ContentJson(c: Content)
    ensures Encode(ContentKind, ContentVal(c)) == ContentObject(c)
  {
    var k, v := ContentKind, ContentVal(c);
    assert EncodeSlot(k.fields[0], v.slots[0]) == OptEntry("filename", c.filename);
    EncodeFieldsEnd(k, v.slots);
    EncodeFieldsCons(k, v.slots, 1);
    EncodeFieldsCons(k, v.slots, 0);
  }

  /** The files of a request, a `HashMap<String, Content>`, as entries in ascending name order
      with each name once. */
  type Files = seq<(string, Content)>

  /** The files map the loop of `GistOptions::new` builds from the input pairs, in the order the
      input map yields them: each name wrapped as a content without a file name, a later pair
      for a name replacing an earlier one. */
  function FilesContents(files: seq<(string, string)>): (r: Files)
    ensures StringOrder.SortedEntries(r)
    decreases |files|
  {
    if |files| == 0 then []
    else
      var last := files[|files| - 1];
      StringOrder.Insert(FilesContents(files[..|files| - 1]), last.0, Content(None, last.1))
  }

  /** The text of the last input pair for a name, if there is one. */
  function LastText(files: seq<(string, string)>, name: string): Option<string>
    decreases |files|
  {
    if |files| == 0 then None
    else if files[|files| - 1].0 == name then Some(files[|files| - 1].1)
    else LastText(files[..|files| - 1], name)
  }

  /** The files map holds one entry per input name, and that entry is the last text given for
      the name, without a file name. */
  lemma {:induction false} FilesContentsLookup(files: seq<(string, string)>, name: string)
    ensures StringOrder.Lookup(FilesContents(files), name) ==
      (match LastText(files, name) case Some(t) => Some(Content(None, t)) case None => None)
    decreases |files|
  {
    if |files| > 0 {
      var init, last := files[..|files| - 1], files[|files| - 1];
      FilesContentsLookup(init, name);
      StringOrder.InsertLookup(FilesContents(init), last.0, Content(None, last.1), name);
    }
  }

  /** The loop shared by `GistOptions::new` and `GistOptionsBuilder::new`. */
  method ContentsOf(files: seq<(string, string)>) returns (contents: Files)
    ensures contents == FilesContents(files)
  {
    contents := [];
    var i := 0;
    while i < |files|
      invariant 0 <= i <= |files|
      invariant contents == FilesContents(files[..i])
    {
      assert files[..i + 1][..i] == files[..i];
      contents := StringOrder.Insert(contents, files[i].0, Content(None, files[i].1));
      i := i + 1;
    }
    assert files[..|files|] == files;
  }

  /** `GistOptions`: description and public are written only when set; files always. */
  datatype GistOptions = GistOptions(description: Option<string>, public: Option<bool>, files: Files)

  const GistOptionsKind := KRec([OptSkip("description", KStr), OptSkip("public", KBool), Req("files", KMap(ContentKind))])

  function FilesVal(files: Files): (v: Val)
    ensures v.VMap? && |v.entries| == |files|
  {
    VMap(seq(|files|, n requires 0 <= n < |files| => (files[n].0, ContentVal(files[n].1))))
  }

  function GistOptionsVal(o: GistOptions): Val {
    VRec([OptStrVal(o.description), OptBoolVal(o.public), Some(FilesVal(o.files))])
  }

  function GistOptionsJson(o: GistOptions): JValue {
    Encode(GistOptionsKind, GistOptionsVal(o))
  }

  /** The object the files map writes: each name with the object of its content, in order. */
  function FilesObject(files: Files): (entries: seq<(string, JValue)>)
    ensures |entries| == |files|
  {
    seq(|files|, n requires 0 <= n < |files| => (files[n].0, ContentObject(files[n].1)))
  }

  lemma EncodeFiles(files: Files)
    ensures Encode(KMap(ContentKind), FilesVal(files)) == JObj(FilesObject(files))
  {
    var entries := FilesVal(files).entries;
    EncodeEntriesEach(KMap(ContentKind), entries);
    var r := EncodeEntries(KMap(ContentKind), entries);
    forall n | 0 <= n < |files| ensures r[n] == FilesObject(files)[n] {
      ContentJson(files[n].1);
    }
  }

  /** The body: the description and the public flag when set, then the files object. */
  lemma GistOptionsJsonFields(o: GistOptions)
    ensures GistOptionsJson(o) == JObj(OptEntry("description", o.description) + OptBoolEntry("public", o.public) +
      [("files", JObj(FilesObject(o.files)))])
  {
    var k, v := GistOptionsKind, GistOptionsVal(o);
    var e0, e1, e2 := OptEntry("description", o.description), OptBoolEntry("public", o.public),
      [("files", JObj(FilesObject(o.files)))];
    assert EncodeSlot(k.fields[0], v.slots[0]) == e0;
    assert EncodeSlot(k.fields[1], v.slots[1]) == e1;
    assert EncodeSlot(k.fields[2], v.slots[2]) == e2 by { EncodeFiles(o.files); }
    EncodeThree(k, v.slots, e0, e1, e2);
  }

  /** `GistOptions::new`: the description as given, public always set, and the files map. */
  method NewGistOptions(description: Option<string>, public: bool, files: seq<(string, string)>)
    returns (o: GistOptions)
    ensures o == GistOptions(description, Some(public), FilesContents(files))
  {
    var contents := ContentsOf(files);
    o := GistOptions(description, Some(public), contents);
  }

  /** `GistOptionsBuilder`: the files map, with description and public unset until the setters
      fill them in. */
  class GistOptionsBuilder {
    var options: GistOptions

    /** `GistOptions::builder(files)`. */
    constructor (files: seq<(string, string)>)
      ensures options == GistOptions(None, None, FilesContents(files))
    {
      var contents := ContentsOf(files);
      options := GistOptions(None, None, contents);
    }

    method SetDescription(description: string)
      modifies this
      ensures options == old(options).(description := Some(description))
    {
      options := options.(description := Some(description));
    }

    method SetPublic(public: bool)
      modifies this
      ensures options == old(options).(public := Some(public))
    {
      options := options.(public := Some(public));
    }

    /** `build`: the options as the builder holds them. */
    function Build(): (o: GistOptions)
      reads this
      ensures o.description == options.description && o.public == options.public && o.files == options.files
    {
      options
    }
  }

  /** One file, given as a single name and text, becomes the files object with that name and
      an object holding only the text. */
  lemma OneFile(name: string, text: string)
    ensures FilesObject(FilesContents([(name, text)])) == [(name, JObj([("content", JStr(text))]))]
  {
    var files := [(name, text)];
    assert files[..0] == [];
    assert FilesContents(files) == [(name, Content(None, text))];
    assert OptEntry("filename", None) + [("content", JStr(text))] == [("content", JStr(text))];
    assert ContentObject(Content(None, text)) == JObj([("content", JStr(text))]);
    var r := FilesObject([(name, Content(None, text))]);
    assert r[0] == (name, JObj([("content", JStr(text))]));
  }

  /** The request examples of `new`, without and with a description, on one file. */
  method NewGistExamples(name: string, text: string) returns (plain: JValue, described: JValue)
    ensures plain == JObj([("public", JBool(true)), ("files", JObj([(name, JObj([("content", JStr(text))]))]))])
    ensures described == JObj([("description", JStr("desc")), ("public", JBool(true)),
      ("files", JObj([(name, JObj([("content", JStr(text))]))]))])
  {
    var files := [(name, text)];
    OneFile(name, text);
    var a := NewGistOptions(None, true, files);
    plain := GistOptionsJson(a);
    GistOptionsJsonFields(a);
    var b := NewGistOptions(Some("desc"), true, files);
    described := GistOptionsJson(b);
    GistOptionsJsonFields(b);
  }

  /** The request examples of the builder, bare, with a description, and with a description
      and public false, on one file. */
  method BuilderGistExamples(name: string, text: string)
    returns (built: JValue, builtDescribed: JValue, builtPrivate: JValue)
    ensures built == JObj([("files", JObj([(name, JObj([("content", JStr(text))]))]))])
    ensures builtDescribed == JObj([("description", JStr("desc")),
      ("files", JObj([(name, JObj([("content", JStr(text))]))]))])
    ensures builtPrivate == JObj([("description", JStr("desc")), ("public", JBool(false)),
      ("files", JObj([(name, JObj([("content", JStr(text))]))]))])
  {
    var files := [(name, text)];
    OneFile(name, text);
    var c := new GistOptionsBuilder(files);
    built := GistOptionsJson(c.Build());
    GistOptionsJsonFields(c.Build());
    c.SetDescription("desc");
    builtDescribed := GistOptionsJson(c.Build());
    GistOptionsJsonFields(c.Build());
    c.SetPublic(false);
    builtPrivate := GistOptionsJson(c.Build());
    GistOptionsJsonFields(c.Build());
  }

  /** `GistFile`: the content, truncated flag and language are optional; the content type is
      read from "type". */
  const GistFileKind := KRec([Req("size", U64), Req("raw_url", KStr), Opt("content", KStr), Req("type", KStr),
    Opt("truncated", KBool), Opt("language", KStr)])

  /** `Gist`: description, owner and user are optional; files is a map of file records. */
  const GistKind := KRec([
    Req("url", KStr), Req("forks_url", KStr), Req("commits_url", KStr), Req("id", KStr),
    Opt("description", KStr), Req("public", KBool), Opt("owner", Users.UserKind), Opt("user", Users.UserKind),
    Req("files", KMap(GistFileKind)), Req("truncated", KBool), Req("comments", U64), Req("comments_url", KStr),
    Req("html_url", KStr), Req("git_pull_url", KStr), Req("git_push_url", KStr), Req("created_at", KStr),
    Req("updated_at", KStr)])

  /** `GistFork`: every field required. */
  const GistForkKind := KRec([Req("user", Users.UserKind), Req("url", KStr), Req("id", KStr),
    Req("created_at", KStr), Req("updated_at", KStr)])

  /** Which fields of the gist records are optional, and the rename of the content type. */
  lemma GistOptionalExactly()
    ensures OptionalExactly(GistFileKind, {"content", "truncated", "language"})
    ensures GistFileKind.fields[3] == Req("type", KStr)
    ensures OptionalExactly(GistKind, {"description", "owner", "user"})
    ensures OptionalExactly(GistForkKind, {})
  {
  }

  /** A gist missing a field other than description, owner or user does not decode; one
      missing those reads them as `None`. */
  lemma GistFields(entries: seq<(string, JValue)>, n: nat)
    requires n < |GistKind.fields| && GistKind.fields[n].wire !in Keys(entries)
    ensures GistKind.fields[n].wire !in {"description", "owner", "user"} ==> Decode(GistKind, JObj(entries)).Err?
    ensures GistKind.fields[n].wire in {"description", "owner", "user"} && Decode(GistKind, JObj(entries)).Ok? ==>
      Decode(GistKind, JObj(entries)).value.slots[n] == None
  {
    GistOptionalExactly();
    AbsentField(GistKind, entries, n);
  }

  /** A gist file missing content, truncated or language reads them as `None`; one missing any
      other field does not decode. */
  lemma GistFileFields(entries: seq<(string, JValue)>, n: nat)
    requires n < |GistFileKind.fields| && GistFileKind.fields[n].wire !in Keys(entries)
    ensures GistFileKind.fields[n].wire !in {"content", "truncated", "language"} ==>
      Decode(GistFileKind, JObj(entries)).Err?
    ensures GistFileKind.fields[n].wire in {"content", "truncated", "language"} && Decode(GistFileKind, JObj(entries)).Ok? ==>
      Decode(GistFileKind, JObj(entries)).value.slots[n] == None
  {
    GistOptionalExactly();
    AbsentField(GistFileKind, entries, n);
  }

  /** A fork missing any field does not decode. */
  lemma GistForkRequired(entries: seq<(string, JValue)>, n: nat)
    requires n < |GistForkKind.fields| && GistForkKind.fields[n].wire !in Keys(entries)
    ensures Decode(GistForkKind, JObj(entries)).Err?
  {
    AbsentField(GistForkKind, entries, n);
  }
}
