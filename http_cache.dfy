/** The conditional-request cache: where a response for a URI is kept, the hexadecimal name a
    query is filed under, a cache that keeps nothing and one that keeps files. The file system
    is a map from paths to file contents; a path is the sequence of its components, which is
    what `PathBuf` equality compares. */
module HttpCache {
  import opened Wrappers
  import opened Errors
  import Text

  /** A `u64`. */
  type U64 = x: nat | x < 0x1_0000_0000_0000_0000

  function Pow16(n: nat): (r: nat)
    ensures r > 0
  {
    if n == 0 then 1 else 16 * Pow16(n - 1)
  }

  lemma Pow16Sixteen()
    ensures Pow16(16) == 0x1_0000_0000_0000_0000
  {
    assert Pow16(2) == 0x100;
    assert Pow16(4) == 0x1_0000;
    assert Pow16(6) == 0x100_0000;
    assert Pow16(8) == 0x1_0000_0000;
    assert Pow16(10) == 0x100_0000_0000;
    assert Pow16(12) == 0x1_0000_0000_0000;
    assert Pow16(14) == 0x100_0000_0000_0000;
  }

  /** A lowercase hexadecimal digit. */
  function HexDigit(d: nat): (c: char)
    requires d < 16
    ensures IsHexDigit(c)
  {
    if d < 10 then ('0' as int + d) as char else ('a' as int + d - 10) as char
  }

  predicate IsHexDigit(c: char) {
    '0' <= c <= '9' || 'a' <= c <= 'f'
  }

  function DigitValue(c: char): nat
    requires IsHexDigit(c)
  {
    if c <= '9' then c as int - '0' as int else c as int - 'a' as int + 10
  }

  /** The number a string of lowercase hexadecimal digits spells, most significant first. */
  function HexValue(s: string): nat
    requires forall i :: 0 <= i < |s| ==> IsHexDigit(s[i])
    decreases |s|
  {
    if |s| == 0 then 0 else HexValue(s[..|s| - 1]) * 16 + DigitValue(s[|s| - 1])
  }

  /** `x` in `width` lowercase hexadecimal digits, zero-padded on the left. */
  function Hex(x: nat, width: nat): (s: string)
    ensures |s| == width
    ensures forall i :: 0 <= i < |s| ==> IsHexDigit(s[i])
  {
    if width == 0 then "" else Hex(x / 16, width - 1) + [HexDigit(x % 16)]
  }

  /** The digits spell the number back whenever it fits in the width. */
  lemma {:induction false} HexRoundTrip(x: nat, width: nat)
    requires x < Pow16(width)
    ensures HexValue(Hex(x, width)) == x
  {
    if width > 0 {
      HexRoundTrip(x / 16, width - 1);
      var s := Hex(x, width);
      assert s[..width - 1] == Hex(x / 16, width - 1);
      assert DigitValue(HexDigit(x % 16)) == x % 16;
    }
  }

  /** `u64_to_padded_hex`: `format!("{:016x}", x)`. */
  function PaddedHex(x: U64): (s: string)
    ensures |s| == 16 && forall i :: 0 <= i < |s| ==> IsHexDigit(s[i])
    ensures HexValue(s) == x
  {
    Pow16Sixteen();
    HexRoundTrip(x, 16);
    Hex(x, 16)
  }

  /** Different numbers get different names. */
  lemma PaddedHexInjective(x: U64, y: U64)
    requires PaddedHex(x) == PaddedHex(y)
    ensures x == y
  {
  }

  lemma {:induction false} HexZero(width: nat)
    ensures Hex(0, width) == seq(width, _ => '0')
  {
    if width > 0 {
      HexZero(width - 1);
    }
  }

  lemma {:induction false} HexFull(width: nat)
    ensures Hex(Pow16(width) - 1, width) == seq(width, _ => 'f')
  {
    if width > 0 {
      HexFull(width - 1);
      assert (Pow16(width) - 1) / 16 == Pow16(width - 1) - 1;
      assert (Pow16(width) - 1) % 16 == 15;
    }
  }

  /** The two documented values: 0 and `u64::MAX`. */
  lemma PaddedHexExamples()
    ensures PaddedHex(0) == "0000000000000000"
    ensures PaddedHex(0xffff_ffff_ffff_ffff) == "ffffffffffffffff"
  {
    HexZero(16);
    HexFull(16);
    Pow16Sixteen();
  }

  /** A URI as `hyper::Uri` splits it; reading the text is not modelled. */
  datatype Uri = Uri(scheme: string, authority: string, path: string, query: Option<string>)

  /** A path's components: the root first when it starts with '/', then its pieces without the
      empty and "." ones. */
  function Components(s: string): seq<string> {
    (if |s| > 0 && s[0] == '/' then ["/"] else []) + Named(Text.Split(s, '/'))
  }

  function Named(parts: seq<string>): (r: seq<string>)
    ensures forall i :: 0 <= i < |r| ==> r[i] != "" && r[i] != "."
  {
    if |parts| == 0 then []
    else (if parts[0] == "" || parts[0] == "." then [] else [parts[0]]) + Named(parts[1..])
  }

  /** `PathBuf::push`: an absolute path replaces the whole buffer, a relative one is appended. */
  function Push(buf: seq<string>, p: string): seq<string> {
    if |p| > 0 && p[0] == '/' then Components(p) else buf + Components(p)
  }

  /** `file_stem`: the name up to its last '.', unless that '.' starts the name. */
  function Stem(name: string): (stem: string)
    ensures |stem| <= |name| && stem == name[..|stem|]
    decreases |name|
  {
    if |name| <= 1 then name
    else if name[|name| - 1] == '.' then name[..|name| - 1]
    else
      var init := Stem(name[..|name| - 1]);
      if init == name[..|name| - 1] then name else init
  }

  /** `set_extension`: the last component's stem with the new extension; nothing changes when
      there is no file name (an empty path, the root or ".."). */
  function SetExtension(buf: seq<string>, ext: string): seq<string> {
    if |buf| == 0 || buf[|buf| - 1] == "/" || buf[|buf| - 1] == ".." then buf
    else buf[..|buf| - 1] + [Stem(buf[|buf| - 1]) + (if ext == "" then "" else "." + ext)]
  }

  /** `hash1`: the query hashed by `DefaultHasher`, which is not modelled, as sixteen digits. */
  function Hash1(query: string, hash: string -> U64): (s: string)
    ensures |s| == 16 && forall i :: 0 <= i < |s| ==> IsHexDigit(s[i])
  {
    PaddedHex(hash(query))
  }

  /** The path `cache_path` builds before it sets the extension. */
  function PushedPath(dir: seq<string>, uri: Uri, hash: string -> U64): seq<string>
    requires |uri.path| > 0
  {
    var path := Push(Push(Push(Push(dir, "v1"), uri.scheme), uri.authority), uri.path[1..]);
    if uri.query.Some? then Push(path, Hash1(uri.query.value, hash)) else path
  }

  /** `cache_path`: dir/v1/scheme/authority/path, then the hash of the query when there is one,
      and the extension on the last component. */
  function CachePathOf(dir: seq<string>, uri: Uri, ext: string, hash: string -> U64): seq<string>
    requires |uri.path| > 0
  {
    SetExtension(PushedPath(dir, uri, hash), ext)
  }

  /** `cache_path`, pushing onto one path buffer. `uri.path()[1..]` needs a path that is not
      empty. */
  method CachePath(dir: seq<string>, uri: Uri, ext: string, hash: string -> U64) returns (path: seq<string>)
    requires |uri.path| > 0
    ensures path == CachePathOf(dir, uri, ext, hash)
  {
    path := dir;
    path := Push(path, "v1");
    path := Push(path, uri.scheme);
    path := Push(path, uri.authority);
    path := Push(path, uri.path[1..]);
    if uri.query.Some? {
      path := Push(path, Hash1(uri.query.value, hash));
    }
    path := SetExtension(path, ext);
  }

  /** A name that is one component: not empty, no '/', not "." or "..". */
  predicate Plain(name: string) {
    |name| > 0 && '/' !in name && name != "." && name != ".."
  }



  lemma PushPlain(buf: seq<string>, name: string)
    requires Plain(name)
    ensures Push(buf, name) == buf + [name]
  {
    Text.SplitPlain(name, '/');
    assert Named([name]) == [name] + Named([]);
  }

  /** A stem without a '.' is the whole name. */
  lemma {:induction false} StemOfDotless(name: string)
    requires '.' !in name
    ensures Stem(name) == name
    decreases |name|
  {
    if |name| > 1 {
      StemOfDotless(name[..|name| - 1]);
    }
  }

  /** Sixteen hexadecimal digits make one component with no '.' in it. */
  lemma HexIsPlain(h: string)
    requires |h| == 16 && forall i :: 0 <= i < |h| ==> IsHexDigit(h[i])
    ensures Plain(h) && '.' !in h
  {
  }

  /** A dotless component pushed last takes the extension after its whole name. */
  lemma NamedLast(path: seq<string>, name: string, ext: string)
    requires Plain(name) && '.' !in name && ext != ""
    ensures SetExtension(Push(path, name), ext) == path + [name + "." + ext]
  {
    PushPlain(path, name);
    StemOfDotless(name);
    assert name[0] in name;
    assert name != "/";
    var withName := path + [name];
    assert withName[..|withName| - 1] == path;
    assert name + ("." + ext) == name + "." + ext;
  }

  /** The part of the path before the query's hash and the extension. */
  lemma PushBase(dir: seq<string>, uri: Uri)
    requires |uri.path| > 0 && Plain(uri.scheme) && Plain(uri.authority)
    requires |uri.path| == 1 || uri.path[1] != '/'
    ensures Push(Push(Push(Push(dir, "v1"), uri.scheme), uri.authority), uri.path[1..]) ==
      dir + ["v1", uri.scheme, uri.authority] + Components(uri.path[1..])
  {
    PushPlain(dir, "v1");
    PushPlain(dir + ["v1"], uri.scheme);
    PushPlain(dir + ["v1"] + [uri.scheme], uri.authority);
    assert dir + ["v1"] + [uri.scheme] + [uri.authority] == dir + ["v1", uri.scheme, uri.authority];
  }

  /** Where a response is kept: under dir/v1/scheme/authority/path. With a query the file is
      named by the query's hash and the extension; without one the last path component takes
      the extension. */
  lemma CachePathShape(dir: seq<string>, uri: Uri, ext: string, hash: string -> U64)
    requires |uri.path| > 0 && Plain(uri.scheme) && Plain(uri.authority)
    requires |uri.path| == 1 || uri.path[1] != '/'
    requires ext != ""
    ensures var r := CachePathOf(dir, uri, ext, hash);
      var base := dir + ["v1", uri.scheme, uri.authority] + Components(uri.path[1..]);
      (uri.query.Some? ==> r == base + [Hash1(uri.query.value, hash) + "." + ext]) &&
      (uri.query.None? ==> r == SetExtension(base, ext))
  {
    PushBase(dir, uri);
    var base := dir + ["v1", uri.scheme, uri.authority] + Components(uri.path[1..]);
    if uri.query.Some? {
      var h := Hash1(uri.query.value, hash);
      HexIsPlain(h);
      NamedLast(base, h, ext);
    }
  }

  /** URIs that differ only in their query are kept side by side in one directory. */
  lemma QueriesShareDirectory(dir: seq<string>, uri: Uri, q1: string, q2: string, ext: string,
                              hash: string -> U64)
    requires |uri.path| > 0 && Plain(uri.scheme) && Plain(uri.authority)
    requires |uri.path| == 1 || uri.path[1] != '/'
    requires ext != ""
    ensures var r1 := CachePathOf(dir, uri.(query := Some(q1)), ext, hash);
      var r2 := CachePathOf(dir, uri.(query := Some(q2)), ext, hash);
      |r1| == |r2| > 0 && r1[..|r1| - 1] == r2[..|r2| - 1]
  {
    CachePathShape(dir, uri.(query := Some(q1)), ext, hash);
    CachePathShape(dir, uri.(query := Some(q2)), ext, hash);
  }

  /** A path of plain names keeps them as its components, in order. */
  lemma ComponentsOfNames(a: string, b: string, c: string)
    requires Plain(a) && Plain(b) && Plain(c)
    ensures Components(a + "/" + b + "/" + c) == [a, b, c]
  {
    assert a + "/" + b + "/" + c == a + "/" + (b + "/" + c);
    assert a[0] in a;
    Text.SplitAfter(a, b + "/" + c, '/');
    Text.SplitAfter(b, c, '/');
    Text.SplitPlain(c, '/');
    var parts := [a, b, c];
    assert Text.Split(a + "/" + b + "/" + c, '/') == parts;
    assert Named(parts[2..]) == [c] + Named([]);
    assert Named(parts[1..]) == [b] + Named(parts[2..]);
    assert Named(parts) == [a] + Named(parts[1..]);
  }

  /** The documented example without a query: ".../users/dwijnand/repos" is kept as
      ".../v1/https/api.github.com/users/dwijnand/repos.json". */
  lemma CachePathExample(dir: seq<string>, scheme: string, authority: string, a: string, b: string,
                         c: string, hash: string -> U64)
    requires Plain(scheme) && Plain(authority) && Plain(a) && Plain(b) && Plain(c) && '.' !in c
    ensures CachePathOf(dir, Uri(scheme, authority, "/" + a + "/" + b + "/" + c, None), "json", hash) ==
      dir + ["v1", scheme, authority, a, b, c + ".json"]
  {
    var base := dir + ["v1", scheme, authority, a, b];
    ExampleComponents(dir, scheme, authority, a, b, c, hash);
    ExampleExtension(base, c);
    assert base + [c + ".json"] == dir + ["v1", scheme, authority, a, b, c + ".json"];
  }

  /** The example's path splits into its three names below the scheme and authority. */
  lemma ExampleComponents(dir: seq<string>, scheme: string, authority: string, a: string, b: string,
                          c: string, hash: string -> U64)
    requires Plain(scheme) && Plain(authority) && Plain(a) && Plain(b) && Plain(c)
    ensures CachePathOf(dir, Uri(scheme, authority, "/" + a + "/" + b + "/" + c, None), "json", hash) ==
      SetExtension(dir + ["v1", scheme, authority, a, b] + [c], "json")
  {
    var uri := Uri(scheme, authority, "/" + a + "/" + b + "/" + c, None);
    ExamplePath(a, b, c);
    CachePathShape(dir, uri, "json", hash);
    assert dir + ["v1", scheme, authority] + [a, b, c] == dir + ["v1", scheme, authority, a, b] + [c];
  }

  /** The example's path, after its leading '/', is the three names. */
  lemma ExamplePath(a: string, b: string, c: string)
    requires Plain(a) && Plain(b) && Plain(c)
    ensures var path := "/" + a + "/" + b + "/" + c;
      |path| > 1 && path[1] != '/' && Components(path[1..]) == [a, b, c]
  {
    var path := "/" + a + "/" + b + "/" + c;
    assert path[1..] == a + "/" + b + "/" + c;
    assert a[0] in a;
    ComponentsOfNames(a, b, c);
  }

  /** The last name, without a '.', gets the extension appended. */
  lemma ExampleExtension(base: seq<string>, c: string)
    requires Plain(c) && '.' !in c
    ensures SetExtension(base + [c], "json") == base + [c + ".json"]
  {
    NamedLast(base, c, "json");
    PushPlain(base, c);
    assert c + "." + "json" == c + ".json";
  }

  /** Pushing names that are not empty onto a path of names that are not empty. */
  predicate Named1(p: seq<string>) {
    forall i :: 0 <= i < |p| ==> p[i] != ""
  }

  lemma PushNamed(buf: seq<string>, p: string)
    requires Named1(buf)
    ensures Named1(Push(buf, p))
  {
  }

  lemma PushedPathNamed(dir: seq<string>, uri: Uri, hash: string -> U64)
    requires |uri.path| > 0 && Named1(dir)
    ensures Named1(PushedPath(dir, uri, hash))
  {
    PushNamed(dir, "v1");
    PushNamed(Push(dir, "v1"), uri.scheme);
    PushNamed(Push(Push(dir, "v1"), uri.scheme), uri.authority);
    var path := Push(Push(Push(Push(dir, "v1"), uri.scheme), uri.authority), uri.path[1..]);
    PushNamed(Push(Push(Push(dir, "v1"), uri.scheme), uri.authority), uri.path[1..]);
    if uri.query.Some? {
      PushNamed(path, Hash1(uri.query.value, hash));
    }
  }

  /** A path whose last component is a file name, the only kind `set_extension` changes. */
  predicate HasFileName(p: seq<string>) {
    |p| > 0 && p[|p| - 1] != "/" && p[|p| - 1] != ".."
  }

  /** The stem of a name just given an extension is the name it was given to. */
  lemma {:induction false} StemOfExtended(stem: string, ext: string)
    requires stem != "" && '.' !in ext
    ensures Stem(stem + "." + ext) == stem
    decreases |ext|
  {
    var name := stem + "." + ext;
    if ext == "" {
      assert name[..|name| - 1] == stem;
    } else {
      var init := ext[..|ext| - 1];
      assert '.' !in init by {
        forall i | 0 <= i < |init| ensures init[i] != '.' {
          assert init[i] == ext[i];
        }
      }
      StemOfExtended(stem, init);
      assert name[..|name| - 1] == stem + "." + init;
      assert name[|name| - 1] == ext[|ext| - 1];
      assert ext[|ext| - 1] in ext;
    }
  }

  /** A stem is never empty when the name is not. */
  lemma {:induction false} StemNotEmpty(name: string)
    requires name != ""
    ensures Stem(name) != ""
    decreases |name|
  {
    if |name| > 1 && name[|name| - 1] != '.' {
      StemNotEmpty(name[..|name| - 1]);
    }
  }

  /** Setting a second extension replaces the first: `cache_response` reaches the etag path by
      changing the extension of the body's path, and that is the path `lookup_etag` reads. */
  lemma ReExtend(p: seq<string>, e1: string, e2: string)
    requires Named1(p) && e1 != "" && e2 != "" && '.' !in e1
    ensures SetExtension(SetExtension(p, e1), e2) == SetExtension(p, e2)
  {
    if HasFileName(p) {
      var last := p[|p| - 1];
      StemNotEmpty(last);
      StemOfExtended(Stem(last), e1);
      var q := SetExtension(p, e1);
      assert q[|q| - 1] == Stem(last) + "." + e1;
      assert q[..|q| - 1] == p[..|p| - 1];
    }
  }

  lemma CachePathReExtend(dir: seq<string>, uri: Uri, e1: string, e2: string, hash: string -> U64)
    requires |uri.path| > 0 && Named1(dir) && e1 != "" && e2 != "" && '.' !in e1
    ensures SetExtension(CachePathOf(dir, uri, e1, hash), e2) == CachePathOf(dir, uri, e2, hash)
  {
    PushedPathNamed(dir, uri, hash);
    ReExtend(PushedPath(dir, uri, hash), e1, e2);
  }

  /** The cache's files: a map from paths to their contents. */
  type Files = map<seq<string>, string>

  /** `read_to_string` of a cached file; a missing one is an I/O error of kind `NotFound`. */
  function ReadFile(files: Files, p: seq<string>): (r: Result<string, Error>)
    ensures p in files <==> r.Ok?
    ensures r.Ok? ==> r.value == files[p]
    ensures r.Err? ==> r.error.IO? && r.error.io.kind == NotFound
  {
    if p in files then Ok(files[p]) else Err(IO(IoError(NotFound, "No such file or directory")))
  }

  /** The files after a response is cached: the body under the "json" path, the etag under the
      "etag" path and, only when there is one, the next link under the "next_link" path. */
  function Stored(files: Files, root: seq<string>, hash: string -> U64, uri: Uri, body: string,
                  etag: string, nextLink: Option<string>): Files
    requires |uri.path| > 0
  {
    var withBody := files[CachePathOf(root, uri, "json", hash) := body];
    var withEtag := withBody[CachePathOf(root, uri, "etag", hash) := etag];
    if nextLink.Some? then withEtag[CachePathOf(root, uri, "next_link", hash) := nextLink.value]
    else withEtag
  }

  /** `NoCache`: caching does nothing and succeeds. */
  function NoCacheResponse(uri: Uri, body: string, etag: string, nextLink: Option<string>): (r: Result<(), Error>)
    ensures r.Ok?
  {
    Ok(())
  }

  /** `no_read`: an I/O error of kind `NotFound` with the given text. */
  function NoRead<T>(message: string): (r: Result<T, Error>)
    ensures r.Err? && r.error == IO(IoError(NotFound, message))
  {
    Err(IO(IoError(NotFound, message)))
  }

  /** `NoCache`'s lookups: nothing is ever found. */
  function NoCacheLookupEtag(uri: Uri): (r: Result<string, Error>)
    ensures r.Err? && r.error.IO? && r.error.io.kind == NotFound
  {
    NoRead("No etag cached")
  }

  function NoCacheLookupBody(uri: Uri): (r: Result<string, Error>)
    ensures r.Err? && r.error.IO? && r.error.io.kind == NotFound
  {
    NoRead("No body cached")
  }

  function NoCacheLookupNextLink(uri: Uri): (r: Result<Option<string>, Error>)
    ensures r.Err? && r.error.IO? && r.error.io.kind == NotFound
  {
    NoRead("No next link cached")
  }

  /** `FileBasedCache`: files under `root`, the query hash being `DefaultHasher`'s. */
  class FileBasedCache {
    const root: seq<string>
    const hash: string -> U64
    var files: Files

    /** `FileBasedCache::new`: nothing is written; whatever files exist stay. */
    constructor (root: seq<string>, hash: string -> U64, files: Files)
      requires Named1(root)
      ensures this.root == root && this.hash == hash && this.files == files
      ensures Valid()
    {
      this.root := root;
      this.hash := hash;
      this.files := files;
    }

    /** The root is a path of names; every path the cache uses is under it. */
    predicate Valid()
      reads this
    {
      Named1(root)
    }

    /** `cache_response`: writes the body, then the etag next to it, then the next link when
        there is one, each time changing the extension of one path. */
    method CacheResponse(uri: Uri, body: string, etag: string, nextLink: Option<string>)
      returns (r: Result<(), Error>)
      requires Valid() && |uri.path| > 0
      modifies this
      ensures r.Ok?
      ensures files == Stored(old(files), root, hash, uri, body, etag, nextLink)
    {
      var path := CachePath(root, uri, "json", hash);
      files := files[path := body];
      CachePathReExtend(root, uri, "json", "etag", hash);
      path := SetExtension(path, "etag");
      files := files[path := etag];
      if nextLink.Some? {
        CachePathReExtend(root, uri, "etag", "next_link", hash);
        path := SetExtension(path, "next_link");
        files := files[path := nextLink.value];
      }
      r := Ok(());
    }

    function LookupEtag(uri: Uri): Result<string, Error>
      requires |uri.path| > 0
      reads this
    {
      ReadFile(files, CachePathOf(root, uri, "etag", hash))
    }

    function LookupBody(uri: Uri): Result<string, Error>
      requires |uri.path| > 0
      reads this
    {
      ReadFile(files, CachePathOf(root, uri, "json", hash))
    }

    /** `lookup_next_link`: no file is no next link, not an error. */
    function LookupNextLink(uri: Uri): (r: Result<Option<string>, Error>)
      requires |uri.path| > 0
      reads this
      ensures r.Ok?
    {
      var p := CachePathOf(root, uri, "next_link", hash);
      if p in files then Ok(Some(files[p])) else Ok(None)
    }
  }

  lemma ExtendedApart(stem: string, e1: string, e2: string)
    requires e1 != e2
    ensures stem + "." + e1 != stem + "." + e2
  {
    var x, y := stem + "." + e1, stem + "." + e2;
    assert x[|stem| + 1..] == e1;
    assert y[|stem| + 1..] == e2;
  }

  /** Two different extensions name two different files, when there is a file name to put
      them on. */
  lemma ExtensionsApart(p: seq<string>, e1: string, e2: string)
    requires HasFileName(p) && e1 != "" && e2 != "" && e1 != e2
    ensures SetExtension(p, e1) != SetExtension(p, e2)
  {
    var stem := Stem(p[|p| - 1]);
    var a, b := SetExtension(p, e1), SetExtension(p, e2);
    assert a[|a| - 1] == stem + "." + e1;
    assert b[|b| - 1] == stem + "." + e2;
    ExtendedApart(stem, e1, e2);
  }

  /** After a response is cached, the body and the etag read back, and so does the next link
      when one was given; without one, whatever next link was cached before is still there. */
  lemma CachedReadsBack(files: Files, root: seq<string>, hash: string -> U64, uri: Uri,
                        body: string, etag: string, nextLink: Option<string>)
    requires |uri.path| > 0 && Named1(root) && HasFileName(PushedPath(root, uri, hash))
    ensures var after := Stored(files, root, hash, uri, body, etag, nextLink);
      var linkPath := CachePathOf(root, uri, "next_link", hash);
      && ReadFile(after, CachePathOf(root, uri, "json", hash)) == Ok(body)
      && ReadFile(after, CachePathOf(root, uri, "etag", hash)) == Ok(etag)
      && (nextLink.Some? ==> ReadFile(after, linkPath) == Ok(nextLink.value))
      && (nextLink.None? ==> ReadFile(after, linkPath) == ReadFile(files, linkPath))
  {
    var pj, pe, pl := CachePathOf(root, uri, "json", hash), CachePathOf(root, uri, "etag", hash),
      CachePathOf(root, uri, "next_link", hash);
    var p := PushedPath(root, uri, hash);
    ExtensionsApart(p, "json", "etag");
    ExtensionsApart(p, "json", "next_link");
    ExtensionsApart(p, "etag", "next_link");
    var withEtag := files[pj := body][pe := etag];
    assert withEtag[pj] == body && withEtag[pe] == etag;
    assert pl in withEtag <==> pl in files;
    assert pl in files ==> withEtag[pl] == files[pl];
  }

  /** With no file name to put an extension on (a URI whose path ends in ".."), the body, the
      etag and the next link share one file, so the body reads back as the etag. */
  lemma NoFileNameCollides(files: Files, root: seq<string>, hash: string -> U64, uri: Uri,
                           body: string, etag: string)
    requires |uri.path| > 0 && !HasFileName(PushedPath(root, uri, hash))
    ensures ReadFile(Stored(files, root, hash, uri, body, etag, None), CachePathOf(root, uri, "json", hash)) == Ok(etag)
  {
  }
}
