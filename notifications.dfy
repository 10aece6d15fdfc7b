/** Notifications: listing the authenticated user's threads, marking them read, reading and
    setting a thread's subscription, the listing options and their builder, and the records. */
module Notifications {
  import opened Wrappers
  import opened Json
  import opened Schema
  import Text
  import UrlEncoding
  import QueryParams
  import Client
  import Users

  /** `list`: the notifications, then the serialized options after a '?' when any is set. */
  function List(options: QueryParams.Params): (req: Client.Call)
    ensures req.verb == Client.Get && req.body == Client.NoBody
    ensures QueryParams.Serialize(options).None? ==> req.uri == "/notifications"
    ensures QueryParams.Serialize(options).Some? ==> req.uri == "/notifications" + "?" + QueryParams.Serialize(options).value
  {
    Client.GetCall(QueryParams.WithQuery("/notifications", options))
  }

  /** `list_for_repo`: the same, below the repository. */
  function ListForRepo(owner: string, repo: string, options: QueryParams.Params): (req: Client.Call)
    ensures req.verb == Client.Get && req.body == Client.NoBody
    ensures QueryParams.Serialize(options).None? ==> req.uri == "/repos/" + owner + "/" + repo + "/notifications"
    ensures QueryParams.Serialize(options).Some? ==> req.uri == "/repos/" + owner + "/" + repo + "/notifications" + "?" + QueryParams.Serialize(options).value
  {
    Client.GetCall(QueryParams.WithQuery("/repos/" + owner + "/" + repo + "/notifications", options))
  }

  /** The path `mark_as_read` and `mark_as_read_for_repo` compute: the notifications, with the
      time form-encoded as the one pair of a query when one is given. */
  function ReadPath(lastReadAt: Option<string>): string {
    match lastReadAt
    case Some(t) => "/notifications" + "?" + UrlEncoding.AppendPair("", "last_read_at", t)
    case None => "/notifications"
  }

  /** `mark_as_read`: a PUT with an empty body. */
  function MarkAsRead(lastReadAt: Option<string>): (req: Client.Call)
    ensures req.verb == Client.Put && req.body == Client.EmptyBody
    ensures lastReadAt.None? ==> req.uri == "/notifications"
    ensures lastReadAt.Some? ==> req.uri == "/notifications" + "?" + UrlEncoding.AppendPair("", "last_read_at", lastReadAt.value)
  {
    Client.Call(Client.Put, ReadPath(lastReadAt), Client.EmptyBody)
  }

  /** `mark_as_read_for_repo`: the same path, below the repository. */
  function MarkAsReadForRepo(owner: string, repo: string, lastReadAt: Option<string>): (req: Client.Call)
    ensures req.verb == Client.Put && req.body == Client.EmptyBody
    ensures lastReadAt.None? ==> req.uri == "/repos/" + owner + "/" + repo + "/notifications"
    ensures lastReadAt.Some? ==>
      req.uri == "/repos/" + owner + "/" + repo + ("/notifications" + "?" + UrlEncoding.AppendPair("", "last_read_at", lastReadAt.value))
  {
    Client.Call(Client.Put, "/repos/" + owner + "/" + repo + ReadPath(lastReadAt), Client.EmptyBody)
  }

  /** Without a time the whole of the notifications is marked; with one, the time goes in the
      query under "last_read_at", form-encoded. */
  lemma MarkAsReadUri(lastReadAt: Option<string>)
    ensures lastReadAt.None? ==> MarkAsRead(lastReadAt).uri == "/notifications"
    ensures lastReadAt.Some? ==>
      MarkAsRead(lastReadAt).uri == "/notifications" + "?" + "last_read_at" + "=" + UrlEncoding.FormEncode(lastReadAt.value)
    ensures MarkAsRead(lastReadAt).verb == Client.Put && MarkAsRead(lastReadAt).body == Client.EmptyBody
  {
    if lastReadAt.Some? {
      LastReadAtPair(lastReadAt.value);
      Text.Regroup("/notifications", "?", "last_read_at", "=", UrlEncoding.FormEncode(lastReadAt.value));
    }
  }

  /** The name of the parameter needs no escaping, so the pair is the name, '=' and the
      encoded time. */
  lemma LastReadAtPair(t: string)
    ensures UrlEncoding.AppendPair("", "last_read_at", t) == "last_read_at" + "=" + UrlEncoding.FormEncode(t)
  {
    var name := "last_read_at";
    assert forall i :: 0 <= i < |name| ==> UrlEncoding.FormSafeChar(name[i]);
    UrlEncoding.FormEncodeSafe(name);
  }

  /** The repository variant is the same request below the repository. */
  lemma MarkAsReadForRepoUri(owner: string, repo: string, lastReadAt: Option<string>)
    ensures MarkAsReadForRepo(owner, repo, lastReadAt) ==
      Client.Call(Client.Put, "/repos/" + owner + "/" + repo + MarkAsRead(lastReadAt).uri, Client.EmptyBody)
  {
  }

  /** The uri of one thread. */
  function ThreadPath(id: string, more: string): string {
    "/notifications/threads/" + id + more
  }

  /** `get_thread`. */
  function GetThread(id: string): (req: Client.Call)
    ensures req == Client.Call(Client.Get, "/notifications/threads/" + id, Client.NoBody)
  {
    Client.GetCall(ThreadPath(id, ""))
  }

  /** `mark_thread_as_read`: a PATCH with an empty body. */
  function MarkThreadAsRead(id: string): (req: Client.Call)
    ensures req == Client.Call(Client.Patch, "/notifications/threads/" + id, Client.EmptyBody)
  {
    Client.Call(Client.Patch, ThreadPath(id, ""), Client.EmptyBody)
  }

  function GetSubscription(id: string): (req: Client.Call)
    ensures req == Client.Call(Client.Get, "/notifications/threads/" + id + "/subscription", Client.NoBody)
  {
    Client.GetCall(ThreadPath(id, "/subscription"))
  }

  /** `subscribe`: puts `{"subscribed": true}`. */
  function Subscribe(id: string): (req: Client.Call)
    ensures req == Client.Call(Client.Put, "/notifications/threads/" + id + "/subscription", Client.JsonBody(JObj([("subscribed", JBool(true))])))
  {
    Client.PutCall(ThreadPath(id, "/subscription"), JObj([("subscribed", JBool(true))]))
  }

  /** `unsubscribe`: puts `{"ignored": true}`, not `{"subscribed": false}`. */
  function Unsubscribe(id: string): (req: Client.Call)
    ensures req == Client.Call(Client.Put, "/notifications/threads/" + id + "/subscription", Client.JsonBody(JObj([("ignored", JBool(true))])))
  {
    Client.PutCall(ThreadPath(id, "/subscription"), JObj([("ignored", JBool(true))]))
  }

  function DeleteSubscription(id: string): (req: Client.Call)
    ensures req == Client.Call(Client.Delete, "/notifications/threads/" + id + "/subscription", Client.NoBody)
  {
    Client.DeleteCall(ThreadPath(id, "/subscription"))
  }

  /** A thread is read and marked at its own uri; its subscription is read, set, ignored and
      deleted at one uri below it, subscribing and unsubscribing both by a PUT of one flag. */
  lemma ThreadCalls(id: string)
    ensures GetThread(id).uri == MarkThreadAsRead(id).uri == "/notifications/threads/" + id
    ensures MarkThreadAsRead(id).verb == Client.Patch && MarkThreadAsRead(id).body == Client.EmptyBody
    ensures GetSubscription(id).uri == Subscribe(id).uri == Unsubscribe(id).uri == DeleteSubscription(id).uri ==
      GetThread(id).uri + "/subscription"
    ensures Subscribe(id).verb == Unsubscribe(id).verb == Client.Put
    ensures Subscribe(id).body == Client.JsonBody(JObj([("subscribed", JBool(true))]))
    ensures Unsubscribe(id).body == Client.JsonBody(JObj([("ignored", JBool(true))]))
    ensures DeleteSubscription(id).verb == Client.Delete
  {
  }

  /** List URIs: the bare path when no option is set, otherwise the path, '?' and the
      serialized options. */
  lemma ListUri(options: QueryParams.Params)
    ensures |options| == 0 ==> List(options).uri == "/notifications"
    ensures |options| > 0 ==> List(options).uri == "/notifications" + "?" + UrlEncoding.FormPairs(options)
  {
  }

  /** The repository's listing is the same, below the repository. */
  lemma ListForRepoUri(owner: string, repo: string, options: QueryParams.Params)
    ensures ListForRepo(owner, repo, options).uri == "/repos/" + owner + "/" + repo + List(options).uri
  {
    var n, r := "/notifications", "/repos/" + owner + "/" + repo;
    if |options| > 0 {
      var q := UrlEncoding.FormPairs(options);
      assert List(options).uri == n + "?" + q;
      assert ListForRepo(owner, repo, options).uri == (r + n) + "?" + q;
    }
  }

  /** `ThreadListOptionsBuilder`: the options of a notification listing. */
  class ThreadListOptionsBuilder {
    var params: QueryParams.Params

    predicate Valid()
      reads this
    {
      QueryParams.Valid(params)
    }

    /** `ThreadListOptions::builder`: no option set. */
    constructor ()
      ensures Valid() && params == []
    {
      params := [];
    }

    /** `all`: "true" or "false" under "all". */
    method All(all: bool)
      requires Valid()
      modifies this
      ensures Valid() && params == QueryParams.Insert(old(params), "all", Text.BoolToString(all))
    {
      params := QueryParams.Insert(params, "all", Text.BoolToString(all));
    }

    /** `participating`: "true" or "false" under "participating". */
    method Participating(participating: bool)
      requires Valid()
      modifies this
      ensures Valid() && params == QueryParams.Insert(old(params), "participating", Text.BoolToString(participating))
    {
      params := QueryParams.Insert(params, "participating", Text.BoolToString(participating));
    }

    /** `since`: the time as given. */
    method Since(since: string)
      requires Valid()
      modifies this
      ensures Valid() && params == QueryParams.Insert(old(params), "since", since)
    {
      params := QueryParams.Insert(params, "since", since);
    }

    /** `before`: the time as given. */
    method Before(before: string)
      requires Valid()
      modifies this
      ensures Valid() && params == QueryParams.Insert(old(params), "before", before)
    {
      params := QueryParams.Insert(params, "before", before);
    }

    /** `build`: the options hold a copy of the map. */
    function Build(): (options: QueryParams.Params)
      reads this
      ensures options == params
    {
      params
    }
  }

  /** A builder left empty lists every notification with the bare path; `all` set twice keeps
      the later value, and a listing of read notifications carries "all=true". */
  method ListOptionsExamples() returns (empty: string, all: Option<string>)
    ensures empty == "/notifications"
    ensures all == Some("all" + "=" + "true")
  {
    var a := new ThreadListOptionsBuilder();
    empty := List(a.Build()).uri;
    var b := new ThreadListOptionsBuilder();
    b.All(false);
    b.All(true);
    QueryParams.InsertTwice([], "all", "false", "true");
    QueryParams.SerializeSafeOne("all", "true");
    all := QueryParams.Serialize(b.Build());
  }

  /** `Subject`: the JSON "type" is read into `kind`. */
  const SubjectKind := KRec([Req("title", KStr), Req("url", KStr), Req("latest_comment_url", KStr), Req("type", KStr)])

  /** `Repository`: the id must fit a `u32`. */
  const RepositoryKind := KRec([
    Req("id", U32), Req("node_id", KStr), Req("name", KStr), Req("full_name", KStr),
    Req("owner", Users.UserKind), Req("html_url", KStr)])

  /** `Thread`: only the time it was last read may be missing. */
  const ThreadKind := KRec([
    Req("id", KStr), Req("unread", KBool), Req("updated_at", KStr), Opt("last_read_at", KStr),
    Req("reason", KStr), Req("subject", SubjectKind), Req("repository", RepositoryKind), Req("url", KStr),
    Req("subscription_url", KStr)])

  /** `Subscription`: every field required. */
  const SubscriptionKind := KRec([
    Req("subscribed", KBool), Req("ignored", KBool), Req("reason", KStr), Req("created_at", KStr),
    Req("url", KStr), Req("thread_url", KStr)])

  /** Which fields are optional, and the rename of the subject's kind. */
  lemma NotificationOptionalExactly()
    ensures OptionalExactly(ThreadKind, {"last_read_at"})
    ensures OptionalExactly(SubjectKind, {}) && SubjectKind.fields[3].wire == "type"
    ensures OptionalExactly(RepositoryKind, {})
    ensures OptionalExactly(SubscriptionKind, {})
  {
  }

  /** A thread missing its last read time reads it as `None`; one missing any other field
      does not decode. */
  lemma ThreadFields(entries: seq<(string, JValue)>, n: nat)
    requires n < |ThreadKind.fields| && ThreadKind.fields[n].wire !in Keys(entries)
    ensures n != 3 ==> Decode(ThreadKind, JObj(entries)).Err?
    ensures n == 3 && Decode(ThreadKind, JObj(entries)).Ok? ==> Decode(ThreadKind, JObj(entries)).value.slots[3] == None
  {
    AbsentField(ThreadKind, entries, n);
  }

  /** A repository whose id is negative or does not fit 32 bits does not decode. */
  lemma RepositoryIdRange(entries: seq<(string, JValue)>, id: int)
    requires Occurrences(entries, "id") == Once(JInt(id)) && (id < 0 || id >= 0x1_0000_0000)
    ensures Decode(RepositoryKind, JObj(entries)).Err?
  {
    DecodeSlotCases(RepositoryKind.fields[0], entries);
    DecodeRecord(RepositoryKind, entries);
  }

  /** A subscription missing any field does not decode. */
  lemma SubscriptionRequired(entries: seq<(string, JValue)>, n: nat)
    requires n < |SubscriptionKind.fields| && SubscriptionKind.fields[n].wire !in Keys(entries)
    ensures Decode(SubscriptionKind, JObj(entries)).Err?
  {
    AbsentField(SubscriptionKind, entries, n);
  }
}
