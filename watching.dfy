/** Watching: the repositories the authenticated user watches, and reading, setting and
    deleting the user's subscription to one repository. */
module Watching {
  import opened Wrappers
  import opened Json
  import opened Schema
  import Client

  /** `iter`: the first request of the stream over the watched repositories. */
  function Iter(): (req: Client.Call)
    ensures req == Client.Call(Client.Get, "/user/subscriptions", Client.NoBody)
  {
    Client.GetCall("/user/subscriptions")
  }

  /** The uri of the user's subscription to a repository. */
  function SubscriptionPath(owner: string, repo: string): string {
    "/repos/" + owner + "/" + repo + "/subscription"
  }

  function GetForRepo(owner: string, repo: string): (req: Client.Call)
    ensures req == Client.Call(Client.Get, "/repos/" + owner + "/" + repo + "/subscription", Client.NoBody)
  {
    Client.GetCall(SubscriptionPath(owner, repo))
  }

  /** `watch_repo`: puts `{"subscribed": true}`. */
  function WatchRepo(owner: string, repo: string): (req: Client.Call)
    ensures req == Client.Call(Client.Put, "/repos/" + owner + "/" + repo + "/subscription", Client.JsonBody(JObj([("subscribed", JBool(true))])))
  {
    Client.PutCall(SubscriptionPath(owner, repo), JObj([("subscribed", JBool(true))]))
  }

  /** `ignore_repo`: puts `{"ignored": true}`. */
  function IgnoreRepo(owner: string, repo: string): (req: Client.Call)
    ensures req == Client.Call(Client.Put, "/repos/" + owner + "/" + repo + "/subscription", Client.JsonBody(JObj([("ignored", JBool(true))])))
  {
    Client.PutCall(SubscriptionPath(owner, repo), JObj([("ignored", JBool(true))]))
  }

  function UnwatchRepo(owner: string, repo: string): (req: Client.Call)
    ensures req == Client.Call(Client.Delete, "/repos/" + owner + "/" + repo + "/subscription", Client.NoBody)
  {
    Client.DeleteCall(SubscriptionPath(owner, repo))
  }

  /** Reading, watching, ignoring and unwatching all address the one subscription uri below
      the repository; watching and ignoring each put one flag set to true. */
  lemma WatchCalls(owner: string, repo: string)
    ensures Iter() == Client.Call(Client.Get, "/user/subscriptions", Client.NoBody)
    ensures GetForRepo(owner, repo).uri == WatchRepo(owner, repo).uri == IgnoreRepo(owner, repo).uri ==
      UnwatchRepo(owner, repo).uri == "/repos/" + owner + "/" + repo + "/subscription"
    ensures GetForRepo(owner, repo).verb == Client.Get && UnwatchRepo(owner, repo).verb == Client.Delete
    ensures WatchRepo(owner, repo).verb == IgnoreRepo(owner, repo).verb == Client.Put
    ensures WatchRepo(owner, repo).body == Client.JsonBody(JObj([("subscribed", JBool(true))]))
    ensures IgnoreRepo(owner, repo).body == Client.JsonBody(JObj([("ignored", JBool(true))]))
  {
  }

  /** Watching and ignoring send different bodies, so neither stands for the other. */
  lemma WatchIgnoreDiffer(owner: string, repo: string)
    ensures WatchRepo(owner, repo) != IgnoreRepo(owner, repo)
  {
    assert WatchRepo(owner, repo).body.json.entries[0].0 == "subscribed";
    assert IgnoreRepo(owner, repo).body.json.entries[0].0 == "ignored";
  }

  /** `Subscription`: only the reason may be missing. */
  const SubscriptionKind := KRec([
    Req("subscribed", KBool), Req("ignored", KBool), Opt("reason", KStr), Req("created_at", KStr),
    Req("url", KStr), Req("repository_url", KStr)])

  lemma SubscriptionOptionalExactly()
    ensures OptionalExactly(SubscriptionKind, {"reason"})
  {
  }

  /** A subscription missing its reason, or giving it as `null`, reads it as `None`; one
      missing any other field does not decode. */
  lemma SubscriptionFields(entries: seq<(string, JValue)>, n: nat)
    requires n < |SubscriptionKind.fields|
    ensures SubscriptionKind.fields[n].wire !in Keys(entries) && n != 2 ==> Decode(SubscriptionKind, JObj(entries)).Err?
    ensures n == 2 && ("reason" !in Keys(entries) || Occurrences(entries, "reason") == Once(JNull)) ==>
      Decode(SubscriptionKind, JObj(entries)).Ok? ==> Decode(SubscriptionKind, JObj(entries)).value.slots[2] == None
  {
    if SubscriptionKind.fields[n].wire !in Keys(entries) {
      AbsentField(SubscriptionKind, entries, n);
    } else if n == 2 && Occurrences(entries, "reason") == Once(JNull) {
      NullField(SubscriptionKind, entries, 2);
    }
  }
}
