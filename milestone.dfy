/** The milestone record, read and written by the derived codec. */
module Milestone {
  import opened Wrappers
  import opened Json
  import opened Schema
  import Users

  /** `Milestone`: the description and the due and closing times may be missing; the state
      is a free string. */
  const MilestoneKind := KRec([
    Req("url", KStr), Req("html_url", KStr), Req("labels_url", KStr), Req("id", U64), Req("node_id", KStr),
    Req("number", U64), Req("title", KStr), Opt("description", KStr), Req("creator", Users.UserKind),
    Req("open_issues", U64), Req("closed_issues", U64), Req("state", KStr), Req("created_at", KStr),
    Req("updated_at", KStr), Opt("due_on", KStr), Opt("closed_at", KStr)])

  lemma MilestoneOptionalExactly()
    ensures OptionalExactly(MilestoneKind, {"description", "due_on", "closed_at"})
  {
  }

  /** A milestone missing its description, due time or closing time, or giving one as
      `null`, reads it as `None`; one missing any other field, the creator included, does not
      decode. */
  lemma MilestoneFields(entries: seq<(string, JValue)>, n: nat)
    requires n < |MilestoneKind.fields|
    ensures MilestoneKind.fields[n].wire !in Keys(entries) && n !in {7, 14, 15} ==> Decode(MilestoneKind, JObj(entries)).Err?
    ensures n in {7, 14, 15} ==>
      (MilestoneKind.fields[n].wire !in Keys(entries) || Occurrences(entries, MilestoneKind.fields[n].wire) == Once(JNull)) ==>
      Decode(MilestoneKind, JObj(entries)).Ok? ==> Decode(MilestoneKind, JObj(entries)).value.slots[n] == None
  {
    if MilestoneKind.fields[n].wire !in Keys(entries) {
      AbsentField(MilestoneKind, entries, n);
    } else if Occurrences(entries, MilestoneKind.fields[n].wire) == Once(JNull) {
      NullField(MilestoneKind, entries, n);
    }
  }

  /** A count or id that is negative or does not fit 64 bits fails the milestone. */
  lemma CountersRange(entries: seq<(string, JValue)>, wire: string, x: int)
    requires wire in {"id", "number", "open_issues", "closed_issues"}
    requires Occurrences(entries, wire) == Once(JInt(x))
    requires x < 0 || x >= 0x1_0000_0000_0000_0000
    ensures Decode(MilestoneKind, JObj(entries)).Err?
  {
    var n := if wire == "id" then 3 else if wire == "number" then 5 else if wire == "open_issues" then 9 else 10;
    assert MilestoneKind.fields[n] == Req(wire, U64);
    DecodeSlotCases(MilestoneKind.fields[n], entries);
    DecodeRecord(MilestoneKind, entries);
  }

  /** Any string is a state: the state's field accepts every string, and a milestone that
      decodes holds the string it was given. */
  lemma AnyState(entries: seq<(string, JValue)>, state: string)
    requires Occurrences(entries, "state") == Once(JStr(state))
    ensures DecodeSlot(MilestoneKind.fields[11], entries) == Ok(Some(VStr(state)))
    ensures Decode(MilestoneKind, JObj(entries)).Ok? ==> Decode(MilestoneKind, JObj(entries)).value.slots[11] == Some(VStr(state))
  {
    DecodeSlotCases(MilestoneKind.fields[11], entries);
    DecodeRecord(MilestoneKind, entries);
  }

  /** The derived serializer writes each of the three `Option` fields, `null` when `None`. */
  lemma MilestoneNulls(slots: seq<Option<Val>>, n: nat)
    requires |slots| == 16 && n in {7, 14, 15} && slots[n] == None
    ensures EncodeSlot(MilestoneKind.fields[n], slots[n]) == [(MilestoneKind.fields[n].wire, JNull)]
  {
  }
}
