/**
 The `resources` field sent to the tag-resources endpoint, and the builder
 that derives it from a list of resource references.
 */
module Payload {
  import opened Wrappers
  import Json
  import opened Refs

  /** One wire entry: `{"resource_type": ..., "resource_id": ...}`. */
  datatype Entry = Entry(resourceType: string, resourceId: string)

  /**
   The builder as written. The identifier of each element is looked up with
   `getattr` on the whole list rather than on the element; a list has no `id`
   attribute, so the lookup always yields the element itself. Defined on the
   prefix so that each step is one iteration of the source's append loop.
   */
  function BuildResourcesField(refs: seq<Ref>, resourceType: string): (field: seq<Entry>)
    ensures |field| <= |refs|
    ensures forall k :: 0 <= k < |field| ==> field[k].resourceType == resourceType
    decreases |refs|
  {
    if |refs| == 0 then []
    else
      var resourceId := refs[|refs| - 1];
      BuildResourcesField(refs[..|refs| - 1], resourceType)
        + (if Truthy(resourceId) then [Entry(resourceType, PyStr(resourceId))] else [])
  }

  /** The positions of the truthy references, in increasing order. */
  function TruthyIndices(refs: seq<Ref>): (idx: seq<nat>)
    ensures forall k :: 0 <= k < |idx| ==> idx[k] < |refs| && Truthy(refs[idx[k]])
    ensures forall k, l :: 0 <= k < l < |idx| ==> idx[k] < idx[l]
    ensures forall i :: 0 <= i < |refs| && Truthy(refs[i]) ==> i in idx
    decreases |refs|
  {
    if |refs| == 0 then []
    else
      var n := |refs| - 1;
      TruthyIndices(refs[..n]) + (if Truthy(refs[n]) then [n] else [])
  }

  /**
   The builder is a stable filter-map: one entry per truthy reference and
   none per falsy one, in input order, duplicates kept, each entry carrying
   the given type and the `str()` of the reference itself.
   */
  lemma {:induction false} BuildIsStableFilterMap(refs: seq<Ref>, resourceType: string)
    ensures var field := BuildResourcesField(refs, resourceType);
            var idx := TruthyIndices(refs);
            && |field| == |idx|
            && forall k :: 0 <= k < |field| ==> field[k] == Entry(resourceType, PyStr(refs[idx[k]]))
    decreases |refs|
  {
    if |refs| > 0 {
      var n := |refs| - 1;
      var prefix := refs[..n];
      BuildIsStableFilterMap(prefix, resourceType);
      var field, idx := BuildResourcesField(prefix, resourceType), TruthyIndices(prefix);
      var last := if Truthy(refs[n]) then [Entry(resourceType, PyStr(refs[n]))] else [];
      assert BuildResourcesField(refs, resourceType) == field + last;
      assert TruthyIndices(refs) == idx + (if Truthy(refs[n]) then [n] else []);
      forall k | 0 <= k < |field|
        ensures (field + last)[k] == Entry(resourceType, PyStr(refs[idx[k]]))
      {
        assert prefix[idx[k]] == refs[idx[k]];
      }
    }
  }

  /** Building over a concatenation concatenates the fields. */
  lemma {:induction false} BuildAppend(a: seq<Ref>, b: seq<Ref>, resourceType: string)
    ensures BuildResourcesField(a + b, resourceType)
         == BuildResourcesField(a, resourceType) + BuildResourcesField(b, resourceType)
    decreases |b|
  {
    if |b| == 0 {
      assert a + b == a;
    } else {
      var n := |b| - 1;
      assert (a + b)[..|a + b| - 1] == a + b[..n];
      BuildAppend(a, b[..n], resourceType);
    }
  }

  /** The field is empty exactly when every reference is falsy (including the empty list). */
  lemma {:induction false} BuildEmptyIff(refs: seq<Ref>, resourceType: string)
    ensures BuildResourcesField(refs, resourceType) == []
        <==> forall i :: 0 <= i < |refs| ==> !Truthy(refs[i])
    decreases |refs|
  {
    if |refs| > 0 {
      var n := |refs| - 1;
      BuildEmptyIff(refs[..n], resourceType);
      assert forall i :: 0 <= i < n ==> refs[..n][i] == refs[i];
    }
  }

  /** An entry is emitted exactly when some truthy reference prints as its identifier. */
  lemma {:induction false} BuildMembership(refs: seq<Ref>, resourceType: string, e: Entry)
    ensures e in BuildResourcesField(refs, resourceType)
        <==> e.resourceType == resourceType
             && exists i :: 0 <= i < |refs| && Truthy(refs[i]) && e.resourceId == PyStr(refs[i])
  {
    BuildIsStableFilterMap(refs, resourceType);
  }

  /**
   The builder the docstring describes: the identifier is the element's own
   `id` attribute when it has one, and the element otherwise.
   */
  function BuildAsDocumented(refs: seq<Ref>, resourceType: string): (field: seq<Entry>)
    ensures |field| <= |refs|
    decreases |refs|
  {
    if |refs| == 0 then []
    else
      var x := refs[|refs| - 1];
      var resourceId := GetId(x, x);
      BuildAsDocumented(refs[..|refs| - 1], resourceType)
        + (if Truthy(resourceId) then [Entry(resourceType, PyStr(resourceId))] else [])
  }

  /** Without objects that carry an `id`, the written and the documented builder agree. */
  lemma {:induction false} AgreesWithoutIdObjects(refs: seq<Ref>, resourceType: string)
    requires forall i :: 0 <= i < |refs| ==> !(refs[i].RObj? && refs[i].id.Some?)
    ensures BuildResourcesField(refs, resourceType) == BuildAsDocumented(refs, resourceType)
    decreases |refs|
  {
    if |refs| > 0 {
      var n := |refs| - 1;
      assert forall i :: 0 <= i < n ==> refs[..n][i] == refs[i];
      AgreesWithoutIdObjects(refs[..n], resourceType);
    }
  }

  /**
   The divergence: an object with an `id` is judged for truthiness and printed as a whole.
   Its entry carries `str(obj)`, not `str(obj.id)`; a truthy object whose `id`
   is falsy is still sent, and a falsy object with a truthy `id` is dropped.
   */
  lemma ObjectIdIgnored(obj: Ref, resourceType: string)
    requires obj.RObj? && obj.id.Some?
    ensures BuildResourcesField([obj], resourceType)
         == (if obj.truthy then [Entry(resourceType, obj.repr)] else [])
    ensures BuildAsDocumented([obj], resourceType)
         == (if Truthy(obj.id.value) then [Entry(resourceType, PyStr(obj.id.value))] else [])
  {
  }

  /** `{"resource_type": t, "resource_id": id}` as a JSON value. */
  function EncodeEntry(e: Entry): Json.Value {
    Json.JDict(map["resource_type" := Json.JStr(e.resourceType), "resource_id" := Json.JStr(e.resourceId)])
  }

  function EncodeEntries(field: seq<Entry>): (vs: seq<Json.Value>)
    ensures |vs| == |field|
    ensures forall k :: 0 <= k < |field| ==> vs[k] == EncodeEntry(field[k])
  {
    if |field| == 0 then [] else [EncodeEntry(field[0])] + EncodeEntries(field[1..])
  }

  /** The list of entry dicts that goes under `"resources"` in the request params. */
  function EncodeField(field: seq<Entry>): Json.Value {
    Json.JList(EncodeEntries(field))
  }

  function DecodeEntry(v: Json.Value): Option<Entry> {
    if v.JDict? && v.fields.Keys == {"resource_type", "resource_id"}
       && v.fields["resource_type"].JStr? && v.fields["resource_id"].JStr?
    then Some(Entry(v.fields["resource_type"].s, v.fields["resource_id"].s))
    else None
  }

  function DecodeEntries(vs: seq<Json.Value>): Option<seq<Entry>> {
    if |vs| == 0 then Some([])
    else
      match (DecodeEntry(vs[0]), DecodeEntries(vs[1..]))
      case (Some(e), Some(rest)) => Some([e] + rest)
      case _ => None
  }

  /** The resources field as the remote service would read it back. */
  function DecodeField(v: Json.Value): Option<seq<Entry>> {
    if v.JList? then DecodeEntries(v.items) else None
  }

  /** The wire encoding loses nothing: every entry can be read back in order. */
  lemma {:induction false} FieldRoundTrip(field: seq<Entry>)
    ensures DecodeField(EncodeField(field)) == Some(field)
    decreases |field|
  {
    if |field| > 0 {
      var e := field[0];
      assert EncodeEntry(e).fields.Keys == {"resource_type", "resource_id"};
      assert DecodeEntry(EncodeEntry(e)) == Some(e);
      FieldRoundTrip(field[1..]);
      assert EncodeEntries(field)[1..] == EncodeEntries(field[1..]);
      assert [e] + field[1..] == field;
    }
  }
}
