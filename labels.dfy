/** Labels of a repository: the requests that list, create, rename and delete them, and the
    two representations. */
module Labels {
  import opened Wrappers
  import opened Json
  import opened Schema
  import Client

  /** `Labels`: the labels of one repository. */
  datatype LabelsApi = LabelsApi(owner: string, repo: string)

  /** `path`: the repository's labels, with `more` after. */
  function Path(l: LabelsApi, more: string): string {
    "/repos/" + l.owner + "/" + l.repo + "/labels" + more
  }

  /** `LabelOptions`: the body of a create or an update. */
  datatype LabelOptions = LabelOptions(name: string, color: string)

  const LabelOptionsKind := KRec([Req("name", KStr), Req("color", KStr)])

  function LabelOptionsJson(o: LabelOptions): JValue {
    Encode(LabelOptionsKind, VRec([Some(VStr(o.name)), Some(VStr(o.color))]))
  }

  /** `LabelOptions::new`: exactly the name and the color, both always written. */
  function NewLabelOptions(name: string, color: string): (o: LabelOptions)
    ensures LabelOptionsJson(o) == JObj([("name", JStr(name)), ("color", JStr(color))])
  {
    var k, slots := LabelOptionsKind, [Some(VStr(name)), Some(VStr(color))];
    assert EncodeSlot(k.fields[1], slots[1]) == [("color", JStr(color))];
    assert EncodeFields(k, slots, 2) == [];
    assert EncodeFields(k, slots, 1) == [("color", JStr(color))];
    assert EncodeSlot(k.fields[0], slots[0]) == [("name", JStr(name))];
    assert EncodeFields(k, slots, 0) == [("name", JStr(name)), ("color", JStr(color))];
    LabelOptions(name, color)
  }

  function Create(l: LabelsApi, o: LabelOptions): (req: Client.Call)
    ensures req == Client.Call(Client.Post, "/repos/" + l.owner + "/" + l.repo + "/labels", Client.JsonBody(LabelOptionsJson(o)))
  {
    Client.PostCall(Path(l, ""), LabelOptionsJson(o))
  }

  /** `update`: the label is addressed by its name before the change. */
  function Update(l: LabelsApi, prevname: string, o: LabelOptions): (req: Client.Call)
    ensures req == Client.Call(Client.Patch, "/repos/" + l.owner + "/" + l.repo + "/labels/" + prevname, Client.JsonBody(LabelOptionsJson(o)))
  {
    Client.PatchCall(Path(l, "/" + prevname), LabelOptionsJson(o))
  }

  function Delete(l: LabelsApi, name: string): (req: Client.Call)
    ensures req == Client.Call(Client.Delete, "/repos/" + l.owner + "/" + l.repo + "/labels/" + name, Client.NoBody)
  {
    Client.DeleteCall(Path(l, "/" + name))
  }

  function List(l: LabelsApi): (req: Client.Call)
    ensures req == Client.Call(Client.Get, "/repos/" + l.owner + "/" + l.repo + "/labels", Client.NoBody)
  {
    Client.GetCall(Path(l, ""))
  }

  /** Listing and creating use the labels collection; renaming and deleting use the label's
      own URI below it, addressed by the old name. */
  lemma LabelCalls(l: LabelsApi, prevname: string, name: string, o: LabelOptions)
    ensures List(l).uri == Create(l, o).uri == "/repos/" + l.owner + "/" + l.repo + "/labels"
    ensures Update(l, prevname, o) ==
      Client.Call(Client.Patch, Create(l, o).uri + "/" + prevname, Client.JsonBody(LabelOptionsJson(o)))
    ensures Delete(l, name) == Client.Call(Client.Delete, List(l).uri + "/" + name, Client.NoBody)
  {
  }

  /** `Label`: it derives both `Serialize` and `Deserialize`. */
  datatype Label = Label(url: string, name: string, color: string)

  const LabelKind := KRec([Req("url", KStr), Req("name", KStr), Req("color", KStr)])

  function LabelVal(l: Label): (v: Val)
    ensures Conforms(LabelKind, v)
  {
    VRec([Some(VStr(l.url)), Some(VStr(l.name)), Some(VStr(l.color))])
  }

  /** The label a decoded value holds. */
  function LabelOf(v: Val): Label {
    if v.VRec? && |v.slots| == 3 then Label(StrOf(v.slots[0]), StrOf(v.slots[1]), StrOf(v.slots[2]))
    else Label("", "", "")
  }

  /** Decoding what encoding a label wrote gives the label back. */
  lemma LabelRoundTrip(l: Label)
    ensures Decode(LabelKind, Encode(LabelKind, LabelVal(l))).Ok?
    ensures LabelOf(Decode(LabelKind, Encode(LabelKind, LabelVal(l))).value) == l
  {
    RoundTrip(LabelKind, LabelVal(l));
  }
}
