/**
 The tag entity: its attributes, its lifecycle (construct, load, create,
 delete) and the operations that attach resources to it and detach them.
 Every operation takes the request log so far and the collaborator, and
 returns the extended log; the entity state is threaded explicitly.
 */
module TagEntity {
  import opened Wrappers
  import opened Json
  import opened Requests
  import Refs
  import Payload

  /** Attribute name to value, as Python's `setattr` fills an object. */
  type Attrs = map<string, Value>

  /** A tag always holds `name` and `resources`: the constructor sets both and nothing removes them. */
  type Tag = a: Attrs | "name" in a && "resources" in a
    witness map["name" := JStr(""), "resources" := JDict(map[])]

  /** The result or exception of a lifecycle operation, the entity state after it, and the log. */
  datatype Outcome<+T> = Outcome(result: Result<T, PyError>, tag: Tag, log: seq<Request>)

  /** `setattr(self, k, attrs[k])` for every key: present keys are overwritten, others kept. */
  function SetAttrs(t: Tag, attrs: Attrs): Tag {
    t + attrs
  }

  /**
   `Tag(**kwargs)`: `name` defaults to `""` and `resources` to `{}`, then the
   base class assigns every keyword argument.
   */
  function New(kwargs: Attrs): (t: Tag)
    ensures t.Keys == kwargs.Keys + {"name", "resources"}
    ensures forall k :: k in kwargs ==> t[k] == kwargs[k]
    ensures "name" !in kwargs ==> t["name"] == JStr("")
    ensures "resources" !in kwargs ==> t["resources"] == JDict(map[])
  {
    SetAttrs(map["name" := JStr(""), "resources" := JDict(map[])], kwargs)
  }

  /**
   `load()`: one GET of `tags/<name>`; every key of `response['tag']` is
   assigned onto the entity and the others are left alone; the entity itself
   is returned. A response that is not a dict, lacks `tag`, or whose `tag` is
   not a dict raises and leaves the entity as it was.
   */
  function Load(t: Tag, log: seq<Request>, api: Api): (o: Outcome<Tag>)
    ensures o.log == log + [Request(TagNamed(t["name"]), GET, None)]
    ensures var fetched := api(o.log[|log|]);
            if fetched.JDict? && "tag" in fetched.fields && fetched.fields["tag"].JDict? then
              var attrs := fetched.fields["tag"].fields;
              && o.result == Ok(o.tag)
              && o.tag.Keys == t.Keys + attrs.Keys
              && (forall k :: k in attrs ==> o.tag[k] == attrs[k])
              && (forall k :: k in t && k !in attrs ==> o.tag[k] == t[k])
            else
              && o.tag == t
              && o.result == Err(
                   if !fetched.JDict? then TypeError
                   else if "tag" !in fetched.fields then KeyError("tag")
                   else AttributeError("keys"))
  {
    var request := Request(TagNamed(t["name"]), GET, None);
    var log' := log + [request];
    match Index(api(request), "tag")
    case Err(e) => Outcome(Err(e), t, log')
    case Ok(tag) =>
      if tag.JDict? then
        var t' := SetAttrs(t, tag.fields);
        Outcome(Ok(t'), t', log')
      else
        Outcome(Err(AttributeError("keys")), t, log')
  }

  /** `Tag.get_object(api_token, tag_name)`: construct with a token and a name, then load. */
  function GetObject(token: Value, tagName: Value, log: seq<Request>, api: Api): (o: Outcome<Tag>)
    ensures o.log == log + [Request(TagNamed(tagName), GET, None)]
    ensures var fetched := api(o.log[|log|]);
            var built := map["name" := tagName, "resources" := JDict(map[]), "token" := token];
            if fetched.JDict? && "tag" in fetched.fields && fetched.fields["tag"].JDict? then
              var attrs := fetched.fields["tag"].fields;
              && o.result == Ok(o.tag)
              && o.tag.Keys == built.Keys + attrs.Keys
              && (forall k :: k in attrs ==> o.tag[k] == attrs[k])
              && (forall k :: k in built && k !in attrs ==> o.tag[k] == built[k])
            else
              o.result.Err? && o.tag == built
  {
    var built := New(map["token" := token, "name" := tagName]);
    assert built == map["name" := tagName, "resources" := JDict(map[]), "token" := token];
    Load(built, log, api)
  }

  /** A create response from which both `name` and `resources` can be read. */
  predicate CompleteCreateResponse(output: Value) {
    && output.JDict? && "tag" in output.fields
    && output.fields["tag"].JDict?
    && "name" in output.fields["tag"].fields
    && "resources" in output.fields["tag"].fields
  }

  /**
   `create(**overrides)`: the overrides are assigned first; then one POST to
   `tags` whose params hold the name and nothing else; on a truthy response
   `name` and then `resources` are read from `output['tag']`. A falsy
   response leaves the post-override state. A missing key raises, keeping
   whatever assignment already happened.
   */
  function Create(t: Tag, log: seq<Request>, api: Api, overrides: Attrs): (o: Outcome<()>)
    ensures var staged := t + overrides;
            o.log == log + [Request(Tags, POST, Some(map["name" := staged["name"]]))]
    ensures o.tag.Keys == t.Keys + overrides.Keys
    ensures forall k :: k in o.tag && k != "name" && k != "resources" ==> o.tag[k] == (t + overrides)[k]
    ensures var output := api(o.log[|log|]);
            !Truthy(output) ==> o == Outcome(Ok(()), t + overrides, o.log)
    ensures var output := api(o.log[|log|]);
            Truthy(output) && CompleteCreateResponse(output) ==>
              && o.result.Ok?
              && o.tag["name"] == output.fields["tag"].fields["name"]
              && o.tag["resources"] == output.fields["tag"].fields["resources"]
    ensures var output := api(o.log[|log|]);
            Truthy(output) && !CompleteCreateResponse(output) ==>
              && o.tag["resources"] == (t + overrides)["resources"]
              && o.result == Err(
                   if !output.JDict? then TypeError
                   else if "tag" !in output.fields then KeyError("tag")
                   else if !output.fields["tag"].JDict? then TypeError
                   else if "name" !in output.fields["tag"].fields then KeyError("name")
                   else KeyError("resources"))
    ensures var output := api(o.log[|log|]);
            Truthy(output) && !CompleteCreateResponse(output)
            && !(output.JDict? && "tag" in output.fields && output.fields["tag"].JDict?
                 && "name" in output.fields["tag"].fields) ==>
              o.tag == t + overrides
    ensures var output := api(o.log[|log|]);
            Truthy(output) && output.JDict? && "tag" in output.fields && output.fields["tag"].JDict?
            && "name" in output.fields["tag"].fields && "resources" !in output.fields["tag"].fields ==>
              && o.tag == (t + overrides)["name" := output.fields["tag"].fields["name"]]
              && o.result == Err(KeyError("resources"))
  {
    var staged := SetAttrs(t, overrides);
    var request := Request(Tags, POST, Some(map["name" := staged["name"]]));
    var output := api(request);
    var log' := log + [request];
    if !Truthy(output) then
      Outcome(Ok(()), staged, log')
    else
      match Index(output, "tag")
      case Err(e) => Outcome(Err(e), staged, log')
      case Ok(tag) =>
        match Index(tag, "name")
        case Err(e) => Outcome(Err(e), staged, log')
        case Ok(name) =>
          var named := staged["name" := name];
          match Index(tag, "resources")
          case Err(e) => Outcome(Err(e), named, log')
          case Ok(resources) => Outcome(Ok(()), named["resources" := resources], log')
  }

  /** `delete()`: one DELETE of `tags/<name>` without params; the raw response is returned. */
  function Delete(t: Tag, log: seq<Request>, api: Api): (r: Reply<Value>)
    ensures |r.log| == |log| + 1 && r.log[..|log|] == log
    ensures r.log[|log|] == Request(TagNamed(t["name"]), DELETE, None)
    ensures r.value == api(r.log[|log|])
  {
    var request := Request(TagNamed(t["name"]), DELETE, None);
    Reply(api(request), log + [request])
  }

  /** The request that carries a resources field to `tags/<name>/resources`. */
  function ResourcesRequest(t: Tag, m: Method, field: seq<Payload.Entry>): Request {
    Request(TagResources(t["name"]), m, Some(map["resources" := Payload.EncodeField(field)]))
  }

  /**
   `__get_resources(resources, method)`: one request to `tags/<name>/resources`
   whose params are exactly `{"resources": ...}`, from which the field reads
   back unchanged; the response is returned as is.
   */
  function SendResources(t: Tag, log: seq<Request>, api: Api, field: seq<Payload.Entry>, m: Method)
    : (r: Reply<Value>)
    ensures |r.log| == |log| + 1 && r.log[..|log|] == log
    ensures var request := r.log[|log|];
            && request.path == TagResources(t["name"])
            && request.httpMethod == m
            && request.params.Some?
            && request.params.value.Keys == {"resources"}
            && Payload.DecodeField(request.params.value["resources"]) == Some(field)
    ensures r.value == api(r.log[|log|])
  {
    Payload.FieldRoundTrip(field);
    var request := ResourcesRequest(t, m, field);
    Reply(api(request), log + [request])
  }

  /** `__add_resources`: the resources request sent with POST. */
  function AttachResources(t: Tag, log: seq<Request>, api: Api, field: seq<Payload.Entry>)
    : (r: Reply<Value>)
    ensures |r.log| == |log| + 1 && r.log[..|log|] == log
    ensures r.log[|log|].httpMethod == POST
    ensures r.log[|log|].path == TagResources(t["name"])
    ensures var request := r.log[|log|];
            && request.params.Some?
            && request.params.value.Keys == {"resources"}
            && Payload.DecodeField(request.params.value["resources"]) == Some(field)
    ensures r.value == api(r.log[|log|])
  {
    SendResources(t, log, api, field, POST)
  }

  /** `__remove_resources`: the resources request sent with DELETE. */
  function DetachResources(t: Tag, log: seq<Request>, api: Api, field: seq<Payload.Entry>)
    : (r: Reply<Value>)
    ensures |r.log| == |log| + 1 && r.log[..|log|] == log
    ensures r.log[|log|].httpMethod == DELETE
    ensures r.log[|log|].path == TagResources(t["name"])
    ensures var request := r.log[|log|];
            && request.params.Some?
            && request.params.value.Keys == {"resources"}
            && Payload.DecodeField(request.params.value["resources"]) == Some(field)
    ensures r.value == api(r.log[|log|])
  {
    SendResources(t, log, api, field, DELETE)
  }

  /** The `resources` argument: a Python `list`, or any other single value. */
  datatype Arg = AList(items: seq<Refs.Ref>) | ASingle(item: Refs.Ref)

  /** `if not isinstance(resources, list): resources = [resources]`. */
  function AsList(resources: Arg): seq<Refs.Ref> {
    match resources
    case AList(items) => items
    case ASingle(item) => [item]
  }

  /**
   What an attach or detach call returns: Python's `False` when nothing was
   sent, or the collaborator's response.
   */
  datatype Association = NoOp | Response(response: Value)

  /**
   The behaviour shared by every attach and detach operation: with no truthy
   reference nothing is sent and `NoOp` comes back; otherwise exactly one
   request with the built field is appended and its response is returned.
   */
  predicate Associates(t: Tag, log: seq<Request>, api: Api, refs: seq<Refs.Ref>,
                       resourceType: string, m: Method, r: Reply<Association>)
  {
    if forall i :: 0 <= i < |refs| ==> !Refs.Truthy(refs[i]) then
      r == Reply(NoOp, log)
    else
      var request := ResourcesRequest(t, m, Payload.BuildResourcesField(refs, resourceType));
      r == Reply(Response(api(request)), log + [request])
  }

  /** `add_resources(resources, resource_type)`. */
  function AddResources(t: Tag, log: seq<Request>, api: Api, resources: Arg, resourceType: string)
    : (r: Reply<Association>)
    ensures Associates(t, log, api, AsList(resources), resourceType, POST, r)
  {
    var items := AsList(resources);
    var field := Payload.BuildResourcesField(items, resourceType);
    Payload.BuildEmptyIff(items, resourceType);
    if |field| > 0 then
      var sent := AttachResources(t, log, api, field);
      Reply(Response(sent.value), sent.log)
    else
      Reply(NoOp, log)
  }

  /** `remove_resources(resources, resource_type)`. */
  function RemoveResources(t: Tag, log: seq<Request>, api: Api, resources: Arg, resourceType: string)
    : (r: Reply<Association>)
    ensures Associates(t, log, api, AsList(resources), resourceType, DELETE, r)
  {
    var items := AsList(resources);
    var field := Payload.BuildResourcesField(items, resourceType);
    Payload.BuildEmptyIff(items, resourceType);
    if |field| > 0 then
      var sent := DetachResources(t, log, api, field);
      Reply(Response(sent.value), sent.log)
    else
      Reply(NoOp, log)
  }

  function AddVolumes(t: Tag, log: seq<Request>, api: Api, volumes: Arg): (r: Reply<Association>)
    ensures Associates(t, log, api, AsList(volumes), "volume", POST, r)
  {
    AddResources(t, log, api, volumes, "volume")
  }

  function RemoveVolumes(t: Tag, log: seq<Request>, api: Api, volumes: Arg): (r: Reply<Association>)
    ensures Associates(t, log, api, AsList(volumes), "volume", DELETE, r)
  {
    RemoveResources(t, log, api, volumes, "volume")
  }

  function AddDroplets(t: Tag, log: seq<Request>, api: Api, droplets: Arg): (r: Reply<Association>)
    ensures Associates(t, log, api, AsList(droplets), "droplet", POST, r)
  {
    AddResources(t, log, api, droplets, "droplet")
  }

  function RemoveDroplets(t: Tag, log: seq<Request>, api: Api, droplets: Arg): (r: Reply<Association>)
    ensures Associates(t, log, api, AsList(droplets), "droplet", DELETE, r)
  {
    RemoveResources(t, log, api, droplets, "droplet")
  }

  function AddSnapshots(t: Tag, log: seq<Request>, api: Api, snapshots: Arg): (r: Reply<Association>)
    ensures Associates(t, log, api, AsList(snapshots), "volume_snapshot", POST, r)
  {
    AddResources(t, log, api, snapshots, "volume_snapshot")
  }

  function RemoveSnapshots(t: Tag, log: seq<Request>, api: Api, snapshots: Arg): (r: Reply<Association>)
    ensures Associates(t, log, api, AsList(snapshots), "volume_snapshot", DELETE, r)
  {
    RemoveResources(t, log, api, snapshots, "volume_snapshot")
  }

  /** A value that is not a list behaves exactly as the one-element list holding it. */
  lemma SingletonCoercion(t: Tag, log: seq<Request>, api: Api, x: Refs.Ref, resourceType: string)
    ensures AddResources(t, log, api, ASingle(x), resourceType)
         == AddResources(t, log, api, AList([x]), resourceType)
    ensures RemoveResources(t, log, api, ASingle(x), resourceType)
         == RemoveResources(t, log, api, AList([x]), resourceType)
  {
  }

  /**
   A non-empty field always reaches the collaborator: the request reads back
   as one entry per truthy reference, in order.
   */
  lemma SentFieldIsBuiltField(t: Tag, log: seq<Request>, api: Api, resources: Arg, resourceType: string)
    requires exists i :: 0 <= i < |AsList(resources)| && Refs.Truthy(AsList(resources)[i])
    ensures var r := AddResources(t, log, api, resources, resourceType);
            && |r.log| == |log| + 1
            && r.log[|log|].params.Some?
            && "resources" in r.log[|log|].params.value
            && Payload.DecodeField(r.log[|log|].params.value["resources"])
               == Some(Payload.BuildResourcesField(AsList(resources), resourceType))
            && r.value == Response(api(r.log[|log|]))
  {
  }
}
