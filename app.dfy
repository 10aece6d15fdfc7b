/** A GitHub App: minting an installation's access token and finding a repository's
    installation, with the token and installation records. */
module App {
  import opened Wrappers
  import opened Json
  import opened Schema
  import Text
  import Client

  /** `path`: below the app. */
  function Path(more: string): string {
    "/app" + more
  }

  /** `make_access_token`: a POST with an empty body below the installation. */
  function MakeAccessToken(installationId: Uint64): (req: Client.Call)
    ensures req == Client.Call(Client.Post, "/app/installations/" + Text.NatToString(installationId) + "/access_tokens", Client.EmptyBody)
  {
    Client.Call(Client.Post, Path("/installations/" + Text.NatToString(installationId) + "/access_tokens"), Client.EmptyBody)
  }

  /** `find_repo_installation`. */
  function FindRepoInstallation(owner: string, repo: string): (req: Client.Call)
    ensures req == Client.Call(Client.Get, "/repos/" + owner + "/" + repo + "/installation", Client.NoBody)
  {
    Client.GetCall("/repos/" + owner + "/" + repo + "/installation")
  }

  /** A token is minted by an empty POST below the app's installation. */
  lemma AccessTokenCall(installationId: Uint64)
    ensures MakeAccessToken(installationId) ==
      Client.Call(Client.Post, "/app" + "/installations/" + Text.NatToString(installationId) + "/access_tokens", Client.EmptyBody)
  {
  }

  /** A repository's installation is read below the repository. */
  lemma RepoInstallationCall(owner: string, repo: string)
    ensures FindRepoInstallation(owner, repo) ==
      Client.Call(Client.Get, "/repos/" + owner + "/" + repo + "/installation", Client.NoBody)
  {
  }

  /** Different installations mint their tokens at different uris. */
  lemma AccessTokenUriInjective(a: Uint64, b: Uint64)
    ensures MakeAccessToken(a).uri == MakeAccessToken(b).uri ==> a == b
  {
    var x, y := Text.NatToString(a), Text.NatToString(b);
    if MakeAccessToken(a).uri == MakeAccessToken(b).uri {
      assert MakeAccessToken(a).uri == "/app" + "/installations/" + x + "/access_tokens";
      assert MakeAccessToken(b).uri == "/app" + "/installations/" + y + "/access_tokens";
      AffixCancel("/app" + "/installations/", x, y, "/access_tokens");
      Text.NatToStringInjective(a, b);
    }
  }

  /** Two strings between the same prefix and suffix that are equal are equal between them. */
  lemma AffixCancel(pre: string, x: string, y: string, post: string)
    requires pre + x + post == pre + y + post
    ensures x == y
  {
    assert |x| == |y|;
    assert x == (pre + x + post)[|pre|..|pre| + |x|];
    assert y == (pre + y + post)[|pre|..|pre| + |y|];
  }

  /** `AccessToken`: the token and its expiry, both required. */
  const AccessTokenKind := KRec([Req("token", KStr), Req("expires_at", KStr)])

  /** `Installation`: the single file name may be missing; the events are a required list. */
  const InstallationKind := KRec([
    Req("id", U64), Req("access_tokens_url", KStr), Req("repositories_url", KStr), Req("html_url", KStr),
    Req("app_id", I32), Req("target_id", I32), Req("target_type", KStr), Req("events", KList(KStr)),
    Opt("single_file_name", KStr), Req("repository_selection", KStr)])

  lemma AppOptionalExactly()
    ensures OptionalExactly(AccessTokenKind, {}) && OptionalExactly(InstallationKind, {"single_file_name"})
  {
  }

  /** A token missing either field does not decode. */
  lemma AccessTokenRequired(entries: seq<(string, JValue)>, n: nat)
    requires n < 2 && AccessTokenKind.fields[n].wire !in Keys(entries)
    ensures Decode(AccessTokenKind, JObj(entries)).Err?
  {
    AbsentField(AccessTokenKind, entries, n);
  }

  /** An installation missing its single file name, or giving it as `null`, reads it as
      `None`; one missing any other field, the events included, does not decode. */
  lemma InstallationFields(entries: seq<(string, JValue)>, n: nat)
    requires n < |InstallationKind.fields|
    ensures InstallationKind.fields[n].wire !in Keys(entries) && n != 8 ==> Decode(InstallationKind, JObj(entries)).Err?
    ensures n == 8 && ("single_file_name" !in Keys(entries) || Occurrences(entries, "single_file_name") == Once(JNull)) ==>
      Decode(InstallationKind, JObj(entries)).Ok? ==> Decode(InstallationKind, JObj(entries)).value.slots[8] == None
  {
    if InstallationKind.fields[n].wire !in Keys(entries) {
      AbsentField(InstallationKind, entries, n);
    } else if n == 8 && Occurrences(entries, "single_file_name") == Once(JNull) {
      NullField(InstallationKind, entries, 8);
    }
  }

  /** An app or target id outside the `i32` range fails the installation. */
  lemma IdRange(entries: seq<(string, JValue)>, n: nat, x: int)
    requires (n == 4 || n == 5) && Occurrences(entries, InstallationKind.fields[n].wire) == Once(JInt(x))
    requires x < -0x8000_0000 || x >= 0x8000_0000
    ensures Decode(InstallationKind, JObj(entries)).Err?
  {
    DecodeSlotCases(InstallationKind.fields[n], entries);
    DecodeRecord(InstallationKind, entries);
  }
}
