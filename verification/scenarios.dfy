/** Concrete scenarios of the tag operations against an arbitrary collaborator. */
module Scenarios {
  import opened Wrappers
  import opened Json
  import opened Requests
  import opened Refs
  import opened Payload
  import opened TagEntity

  /** A droplet object whose `id` is 333 and whose `str()` is its repr. */
  function Droplet333(): Ref {
    RObj(true, "<Droplet: 333 web-1>", Some(RInt(333)))
  }

  function MixedReferences(): seq<Ref> {
    [RInt(111), RStr("222"), Droplet333()]
  }

  lemma MixedReferencesField()
    ensures BuildResourcesField(MixedReferences(), "droplet")
         == [Entry("droplet", "111"), Entry("droplet", "222"), Entry("droplet", "<Droplet: 333 web-1>")]
  {
    var refs := MixedReferences();
    assert PyStr(RInt(111)) == "111";
    assert refs[..2] == [RInt(111), RStr("222")];
    assert refs[..2][..1] == [RInt(111)];
    assert [RInt(111)][..0] == [];
    assert BuildResourcesField([RInt(111)], "droplet") == [Entry("droplet", "111")];
  }

  lemma MixedReferencesDocumentedField()
    ensures BuildAsDocumented(MixedReferences(), "droplet")
         == [Entry("droplet", "111"), Entry("droplet", "222"), Entry("droplet", "333")]
  {
    var refs := MixedReferences();
    assert PyStr(RInt(111)) == "111";
    assert PyStr(RInt(333)) == "333";
    assert refs[..2] == [RInt(111), RStr("222")];
    assert refs[..2][..1] == [RInt(111)];
    assert [RInt(111)][..0] == [];
    assert BuildAsDocumented([RInt(111)], "droplet") == [Entry("droplet", "111")];
  }

  /**
   `Tag(name="prod").add_droplets([111, "222", droplet])` where the droplet's
   `id` is 333: one POST whose field carries "111", "222" and the droplet's
   `str()`, where the documented behaviour would have sent "333".
   */
  lemma AddDropletsMixedReferences(api: Api)
    ensures var sent := [Entry("droplet", "111"), Entry("droplet", "222"), Entry("droplet", "<Droplet: 333 web-1>")];
            var r := AddDroplets(New(map["name" := JStr("prod")]), [], api, AList(MixedReferences()));
            && r.log == [Request(TagResources(JStr("prod")), POST, Some(map["resources" := EncodeField(sent)]))]
            && BuildAsDocumented(MixedReferences(), "droplet") != sent
  {
    MixedReferencesField();
    MixedReferencesDocumentedField();
    var refs := MixedReferences();
    assert Refs.Truthy(refs[0]);
    var sent := [Entry("droplet", "111"), Entry("droplet", "222"), Entry("droplet", "<Droplet: 333 web-1>")];
    var documented := [Entry("droplet", "111"), Entry("droplet", "222"), Entry("droplet", "333")];
    assert documented[2] != sent[2];
  }

  /** `add_resources([], "volume")` and `add_resources([None], "volume")` send nothing and return `False`. */
  lemma EmptyAndNoneShortCircuit(t: Tag, log: seq<Request>, api: Api)
    ensures AddResources(t, log, api, AList([]), "volume") == Reply(NoOp, log)
    ensures AddResources(t, log, api, AList([RNone]), "volume") == Reply(NoOp, log)
  {
  }

  /** A lone `""`, and a list of `0` and `False`, are filtered out as well. */
  lemma FalsyValuesShortCircuit(t: Tag, log: seq<Request>, api: Api)
    ensures AddResources(t, log, api, ASingle(RStr("")), "droplet") == Reply(NoOp, log)
    ensures RemoveResources(t, log, api, AList([RInt(0), RBool(false)]), "volume") == Reply(NoOp, log)
  {
  }

  /** `create(name="t", resources={"fake": 1})` transmits only the name. */
  lemma CreateSendsOnlyName(t: Tag, log: seq<Request>, api: Api)
    ensures var overrides := map["name" := JStr("t"), "resources" := JDict(map["fake" := JInt(1)])];
            var o := Create(t, log, api, overrides);
            o.log == log + [Request(Tags, POST, Some(map["name" := JStr("t")]))]
  {
  }

  /**
   A load response `{"tag": {"name": "t", "resources": {"droplets": {"count": 2}}}}`
   sets `name` to "t" and `resources` to the whole dict under `resources`.
   */
  lemma LoadRefreshesNameAndResources(t: Tag, log: seq<Request>, api: Api)
    requires api(Request(TagNamed(t["name"]), GET, None))
          == JDict(map["tag" := JDict(map[
               "name" := JStr("t"),
               "resources" := JDict(map["droplets" := JDict(map["count" := JInt(2)])])])])
    ensures var o := Load(t, log, api);
            && o.result.Ok?
            && o.tag["name"] == JStr("t")
            && o.tag["resources"] == JDict(map["droplets" := JDict(map["count" := JInt(2)])])
  {
  }
}
