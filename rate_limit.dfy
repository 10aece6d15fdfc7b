/** The rate limit: the request that reads it and the status it answers, one counter triple
    for each of the core, search and GraphQL resources. */
module RateLimit {
  import opened Wrappers
  import opened Json
  import opened Schema
  import Client

  /** `get`. */
  function Get(): (req: Client.Call)
    ensures req == Client.Call(Client.Get, "/rate_limit", Client.NoBody)
  {
    Client.GetCall("/rate_limit")
  }

  lemma GetCall()
    ensures Get() == Client.Call(Client.Get, "/rate_limit", Client.NoBody)
  {
  }

  /** `RateLimitResourceStatus`: three `u32`s; the reset time is kept as the raw number. */
  const ResourceKind := KRec([Req("limit", U32), Req("remaining", U32), Req("reset", U32)])

  /** `RateLimitResourcesStatus`: all three resources required. */
  const ResourcesKind := KRec([Req("core", ResourceKind), Req("search", ResourceKind), Req("graphql", ResourceKind)])

  /** `RateLimitStatus`. */
  const StatusKind := KRec([Req("resources", ResourcesKind)])

  /** A status without its resources, or resources missing any of core, search and graphql,
      do not decode. */
  lemma ResourcesRequired(entries: seq<(string, JValue)>, n: nat)
    ensures "resources" !in Keys(entries) ==> Decode(StatusKind, JObj(entries)).Err?
    ensures n < 3 && ResourcesKind.fields[n].wire !in Keys(entries) ==> Decode(ResourcesKind, JObj(entries)).Err?
  {
    if "resources" !in Keys(entries) { AbsentField(StatusKind, entries, 0); }
    if n < 3 && ResourcesKind.fields[n].wire !in Keys(entries) { AbsentField(ResourcesKind, entries, n); }
  }

  /** A counter that is negative or does not fit 32 bits fails the resource. */
  lemma CounterRange(entries: seq<(string, JValue)>, n: nat, x: int)
    requires n < 3 && Occurrences(entries, ResourceKind.fields[n].wire) == Once(JInt(x))
    requires x < 0 || x >= 0x1_0000_0000
    ensures Decode(ResourceKind, JObj(entries)).Err?
  {
    DecodeSlotCases(ResourceKind.fields[n], entries);
    DecodeRecord(ResourceKind, entries);
  }

  /** Counters that fit 32 bits are read as they are: the reset time comes back as the same
      number, with no conversion. */
  lemma ResourceExact(limit: Uint32, remaining: Uint32, reset: Uint32)
    ensures Decode(ResourceKind, JObj([("limit", JInt(limit)), ("remaining", JInt(remaining)), ("reset", JInt(reset))])) ==
      Ok(VRec([Some(VInt(limit)), Some(VInt(remaining)), Some(VInt(reset))]))
  {
    var k, slots := ResourceKind, [Some(VInt(limit)), Some(VInt(remaining)), Some(VInt(reset))];
    EncodeThree(k, slots, [("limit", JInt(limit))], [("remaining", JInt(remaining))], [("reset", JInt(reset))]);
    assert [("limit", JInt(limit))] + [("remaining", JInt(remaining))] + [("reset", JInt(reset))] ==
      [("limit", JInt(limit)), ("remaining", JInt(remaining)), ("reset", JInt(reset))];
    assert Conforms(k, VRec(slots));
    RoundTrip(k, VRec(slots));
  }
}
