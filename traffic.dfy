/** Traffic of a repository: its popular referrers and paths, and its views and clones broken
    down by day or by week. */
module Traffic {
  import opened Wrappers
  import opened Json
  import opened Schema
  import Client

  /** `TimeUnit`: the breakdown of views and clones. */
  datatype TimeUnit = Week | Day

  /** `Display for TimeUnit`. */
  function TimeUnitText(u: TimeUnit): string {
    match u
    case Week => "week"
    case Day => "day"
  }

  /** The two units are written differently. */
  lemma TimeUnitTextDistinct(u: TimeUnit, v: TimeUnit)
    ensures TimeUnitText(u) == TimeUnitText(v) <==> u == v
  {
  }

  /** `Traffic`: the traffic of one repository. */
  datatype TrafficApi = TrafficApi(owner: string, repo: string)

  /** `path`: the repository's traffic, with `more` after. */
  function Path(t: TrafficApi, more: string): string {
    "/repos/" + t.owner + "/" + t.repo + "/traffic" + more
  }

  function Referrers(t: TrafficApi): (req: Client.Call)
    ensures req == Client.Call(Client.Get, "/repos/" + t.owner + "/" + t.repo + "/traffic/popular/referrers", Client.NoBody)
  {
    Client.GetCall(Path(t, "/popular/referrers"))
  }

  function Paths(t: TrafficApi): (req: Client.Call)
    ensures req == Client.Call(Client.Get, "/repos/" + t.owner + "/" + t.repo + "/traffic/popular/paths", Client.NoBody)
  {
    Client.GetCall(Path(t, "/popular/paths"))
  }

  /** `views`: the unit picks one of two fixed suffixes. */
  function Views(t: TrafficApi, unit: TimeUnit): (req: Client.Call)
    ensures unit == Week ==> req == Client.Call(Client.Get, "/repos/" + t.owner + "/" + t.repo + "/traffic/views?per=week", Client.NoBody)
    ensures unit == Day ==> req == Client.Call(Client.Get, "/repos/" + t.owner + "/" + t.repo + "/traffic/views?per=day", Client.NoBody)
  {
    Client.GetCall(Path(t, match unit case Week => "/views?per=week" case Day => "/views?per=day"))
  }

  /** `clones`: the unit picks one of two fixed suffixes. */
  function Clones(t: TrafficApi, unit: TimeUnit): (req: Client.Call)
    ensures unit == Week ==> req == Client.Call(Client.Get, "/repos/" + t.owner + "/" + t.repo + "/traffic/clones?per=week", Client.NoBody)
    ensures unit == Day ==> req == Client.Call(Client.Get, "/repos/" + t.owner + "/" + t.repo + "/traffic/clones?per=day", Client.NoBody)
  {
    Client.GetCall(Path(t, match unit case Week => "/clones?per=week" case Day => "/clones?per=day"))
  }

  /** The popular referrers and paths are read below the repository's traffic. */
  lemma PopularCalls(t: TrafficApi)
    ensures Referrers(t) == Client.Call(Client.Get, Path(t, "") + "/popular/referrers", Client.NoBody)
    ensures Paths(t) == Client.Call(Client.Get, Path(t, "") + "/popular/paths", Client.NoBody)
  {
  }

  /** Views and clones are read below the repository's traffic, with the unit's display text
      after "?per=". */
  lemma BreakdownCalls(t: TrafficApi, unit: TimeUnit)
    ensures Views(t, unit).uri == Path(t, "") + "/views?per=" + TimeUnitText(unit)
    ensures Clones(t, unit).uri == Path(t, "") + "/clones?per=" + TimeUnitText(unit)
    ensures Views(t, unit).verb == Clones(t, unit).verb == Client.Get
  {
    var base := Path(t, "");
    UnitSuffixes();
    assert Views(t, unit).uri == base + (match unit case Week => "/views?per=week" case Day => "/views?per=day");
    assert Clones(t, unit).uri == base + (match unit case Week => "/clones?per=week" case Day => "/clones?per=day");
  }

  /** The fixed suffixes end in the units' display texts. */
  lemma UnitSuffixes()
    ensures "/views?per=week" == "/views?per=" + TimeUnitText(Week)
    ensures "/views?per=day" == "/views?per=" + TimeUnitText(Day)
    ensures "/clones?per=week" == "/clones?per=" + TimeUnitText(Week)
    ensures "/clones?per=day" == "/clones?per=" + TimeUnitText(Day)
  {
  }

  /** `Referrer`. */
  const ReferrerKind := KRec([Req("referrer", KStr), Req("count", U32), Req("uniques", U32)])

  /** `Path`. */
  const PathKind := KRec([Req("path", KStr), Req("title", KStr), Req("count", U32), Req("uniques", U32)])

  /** `DataPoint`. */
  const DataPointKind := KRec([Req("timestamp", KStr), Req("count", U32), Req("uniques", U32)])

  /** `Views`. */
  const ViewsKind := KRec([Req("count", U32), Req("uniques", U32), Req("views", KList(DataPointKind))])

  /** `Clones`. */
  const ClonesKind := KRec([Req("count", U32), Req("uniques", U32), Req("clones", KList(DataPointKind))])

  /** No field of the traffic records is optional. */
  lemma TrafficAllRequired()
    ensures OptionalExactly(ReferrerKind, {}) && OptionalExactly(PathKind, {})
    ensures OptionalExactly(DataPointKind, {}) && OptionalExactly(ViewsKind, {}) && OptionalExactly(ClonesKind, {})
  {
  }

  /** Views or clones missing any field do not decode. */
  lemma ViewsClonesRequired(entries: seq<(string, JValue)>, n: nat)
    requires n < 3
    ensures ViewsKind.fields[n].wire !in Keys(entries) ==> Decode(ViewsKind, JObj(entries)).Err?
    ensures ClonesKind.fields[n].wire !in Keys(entries) ==> Decode(ClonesKind, JObj(entries)).Err?
    ensures DataPointKind.fields[n].wire !in Keys(entries) ==> Decode(DataPointKind, JObj(entries)).Err?
  {
    if ViewsKind.fields[n].wire !in Keys(entries) { AbsentField(ViewsKind, entries, n); }
    if ClonesKind.fields[n].wire !in Keys(entries) { AbsentField(ClonesKind, entries, n); }
    if DataPointKind.fields[n].wire !in Keys(entries) { AbsentField(DataPointKind, entries, n); }
  }

  /** A count that is negative or does not fit 32 bits fails the views, the clones and each
      data point. */
  lemma CountRange(entries: seq<(string, JValue)>, count: int)
    requires Occurrences(entries, "count") == Once(JInt(count)) && (count < 0 || count >= 0x1_0000_0000)
    ensures Decode(ViewsKind, JObj(entries)).Err?
    ensures Decode(ClonesKind, JObj(entries)).Err?
    ensures Decode(DataPointKind, JObj(entries)).Err?
  {
    DecodeSlotCases(ViewsKind.fields[0], entries);
    DecodeRecord(ViewsKind, entries);
    DecodeSlotCases(ClonesKind.fields[0], entries);
    DecodeRecord(ClonesKind, entries);
    DecodeSlotCases(DataPointKind.fields[1], entries);
    DecodeRecord(DataPointKind, entries);
  }

  /** Views decode exactly when every data point does. */
  lemma ViewsPoints(items: seq<JValue>)
    ensures DecodeItems(KList(DataPointKind), items).Ok? <==>
      forall n :: 0 <= n < |items| ==> Decode(DataPointKind, items[n]).Ok?
  {
    DecodeItemsEach(KList(DataPointKind), items);
  }
}
