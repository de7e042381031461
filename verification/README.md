# Tag resource association — a Dafny model

This project models the `Tag` class of the python-digitalocean client
(`digitalocean/Tag.py`): a named label that the remote service attaches to
droplets, volumes and volume snapshots. It covers

- the payload builder `__build_resources_field`, which turns a list of
  resource references into `{"resource_type", "resource_id"}` entries;
- the generic `add_resources` / `remove_resources`, their singleton coercion
  and their empty-payload short-circuit, and the request shaping of
  `__get_resources`, `__add_resources` and `__remove_resources`;
- the six typed wrappers (`add_volumes`, `remove_volumes`, `add_droplets`,
  `remove_droplets`, `add_snapshots`, `remove_snapshots`);
- the lifecycle: the constructor defaults, `get_object`, `load`, `create`
  and `delete`.

## Structure

- `wrappers.dfy` — `Option` and `Result`.
- `decimal.dfy` — Python's `str()` of an `int`, with its parser as the
  inverse used to state what the printed form means.
- `json.dfy` — the parsed values the collaborator returns, Python
  truthiness of them, and `v[key]` with its `KeyError` / `TypeError`.
- `refs.dfy` — a resource reference: `None`, a bool, an int, a string, or an
  object known only by its truthiness, its `str()` and its optional `id`.
- `payload.dfy` — the builder as written, its characterisation as a stable
  filter-map, the builder the docstring describes, and the wire encoding of
  the field with its decoder.
- `requests.dfy` — `Request(path, method, params)` for one call of
  `BaseAPI.get_data`, and `Api`, the collaborator as a function from requests
  to responses.
- `tag.dfy` — the entity and every operation. The entity is a map from
  attribute names to values that always holds `name` and `resources`; each
  operation takes the request log so far and the collaborator, and returns the
  extended log (and, for lifecycle operations, the new state and the result or
  exception).
- `scenarios.dfy` — concrete scenarios: mixed droplet references, empty and
  all-falsy arguments, the create payload, a load refresh.

## Behaviour modelled as written

- The identifier of each element is looked up with `getattr(resources_to_tag,
  "id", resource_to_tag)` (`digitalocean/Tag.py:92`), that is on the list and
  not on the element. A Python list has no `id` attribute, so the element
  itself is judged for truthiness and printed with `str()`. A droplet or volume
  object therefore contributes `str(obj)`, not `str(obj.id)`, contrary to the
  docstring at lines 80-86, which says objects are resolved through their id.
  `BuildResourcesField` models the code; `BuildAsDocumented` models the
  docstring; `ObjectIdIgnored` and `AddDropletsMixedReferences` show where the
  two differ, and `AgreesWithoutIdObjects` shows they agree on every list
  without such objects.
- A load response `{"tag": {"name": "t", "resources": {"droplets": {"count":
  2}}}}` sets `resources` to the whole dict `{"droplets": {"count": 2}}`
  (line 27 stores the whole value under `resources`).
- `add_resources` / `remove_resources` return Python's `False` when nothing is
  sent; the model names that result `NoOp`.
- `create` assigns `name` before reading `resources` (lines 42-43): a truthy
  response with a name but no resources raises `KeyError` after the name has
  changed, and the model keeps that partial update.
- The name is formatted into the URL without escaping (lines 23, 46, 52), so
  a tag named `x/resources` is loaded or deleted through the resources
  endpoint path of the tag `x` (`NameNotEscaped`).

## Model

| member | source | states |
|---|---|---|
| Payload.BuildResourcesField | digitalocean/Tag.py:89-99 | the field is no longer than the input and every entry carries the given resource type |
| Payload.BuildIsStableFilterMap | digitalocean/Tag.py:91-97 | entry k is `{type, str(refs[i])}` for the k-th truthy position i: one entry per truthy reference, none per falsy one, in input order, duplicates kept, the element itself (not its id) printed |
| Payload.BuildAppend | digitalocean/Tag.py:89-99 | building over `a + b` gives the field of `a` followed by the field of `b` |
| Payload.BuildEmptyIff | digitalocean/Tag.py:93 | the field is empty exactly when every reference is falsy, the empty list included |
| Payload.BuildMembership | digitalocean/Tag.py:91-97 | an entry is emitted exactly when it has the given type and some truthy reference prints as its identifier |
| Payload.AgreesWithoutIdObjects | digitalocean/Tag.py:92 | on lists without objects that carry an `id`, the code's builder equals the docstring's |
| Payload.ObjectIdIgnored | digitalocean/Tag.py:80-97 | an object with an `id` is judged for truthiness and printed as a whole, while the docstring's builder judges and prints its `id` |
| Payload.FieldRoundTrip | digitalocean/Tag.py:94-97 | the list of entry dicts reads back as the same entries in the same order |
| Decimal.IntToDecimal | digitalocean/Tag.py:96 | `str()` of an int: a sign exactly for negatives, digits after it, no leading zero, `"0"` for zero |
| Decimal.DecimalRoundTrip | digitalocean/Tag.py:96 | `str()` of an int parses back to that int |
| Decimal.DecimalInjective | digitalocean/Tag.py:96 | two ints print the same identifier exactly when they are equal |
| Requests.PathText | digitalocean/Tag.py:23-52 | every path the tag code formats renders exactly when its name is a scalar, and starts with `tags` (with `tags/` when a name is formatted in) |
| Requests.ResourcesPathExtendsTagPath | digitalocean/Tag.py:51-52 | for every scalar name, the resources URL is the tag's own URL followed by `/resources` |
| Requests.NameNotEscaped | digitalocean/Tag.py:23 | the name is not escaped: the URL of a tag named `n/resources` equals the resources URL of the tag `n` |
| TagEntity.New | digitalocean/Tag.py:8-11 | a fresh tag has `name == ""` and `resources == {}` unless a keyword argument sets them; every keyword argument is kept |
| TagEntity.Load | digitalocean/Tag.py:19-29 | exactly one GET of `tags/<name>` without params; every key of `response['tag']` overwrites the attribute, the others are unchanged, the entity is returned; a malformed response raises the matching exception and leaves the state |
| TagEntity.GetObject | digitalocean/Tag.py:13-17 | the single request is a GET of `tags/<tag_name>`; on a response with a dict under `tag` the loaded tag is returned, every key of that dict overwriting the constructed token/name/resources and the others kept; otherwise an exception |
| TagEntity.Create | digitalocean/Tag.py:31-43 | overrides are applied first; exactly one POST to `tags` whose params are `{"name": name}` only; a falsy response keeps the post-override state; a complete truthy response refreshes `name` and `resources`; an incomplete one raises `TypeError` or `KeyError` for the first missing step, with `name` already overwritten when only `resources` is missing; every other attribute keeps its post-override value |
| TagEntity.Delete | digitalocean/Tag.py:45-46 | exactly one DELETE of `tags/<name>` without params, whose response is returned |
| TagEntity.SendResources | digitalocean/Tag.py:48-57 | exactly one request to `tags/<name>/resources` with the given method, whose params hold only `resources`, from which the field reads back unchanged; the response is returned |
| TagEntity.AttachResources | digitalocean/Tag.py:59-66 | one POST to `tags/<name>/resources` whose params hold only `resources`, reading back as the given field; the response is returned |
| TagEntity.DetachResources | digitalocean/Tag.py:68-75 | one DELETE to `tags/<name>/resources` whose params hold only `resources`, reading back as the given field; the response is returned |
| TagEntity.AddResources | digitalocean/Tag.py:146-163 | with no truthy reference, `False` and no request; otherwise exactly one POST to `tags/<name>/resources` carrying the built field, whose response is returned |
| TagEntity.RemoveResources | digitalocean/Tag.py:165-182 | as `AddResources`, with DELETE |
| TagEntity.AddVolumes | digitalocean/Tag.py:101-105 | the add operation with type `volume` |
| TagEntity.RemoveVolumes | digitalocean/Tag.py:107-111 | the remove operation with type `volume` |
| TagEntity.AddDroplets | digitalocean/Tag.py:113-119 | the add operation with type `droplet` |
| TagEntity.RemoveDroplets | digitalocean/Tag.py:121-127 | the remove operation with type `droplet` |
| TagEntity.AddSnapshots | digitalocean/Tag.py:129-136 | the add operation with type `volume_snapshot` |
| TagEntity.RemoveSnapshots | digitalocean/Tag.py:138-144 | the remove operation with type `volume_snapshot` |
| TagEntity.SingletonCoercion | digitalocean/Tag.py:155-156 | a non-list argument behaves exactly as the one-element list holding it, for add and for remove |
| TagEntity.SentFieldIsBuiltField | digitalocean/Tag.py:159-161 | when some reference is truthy, the one request sent carries a field that reads back as the built field |
| Scenarios.AddDropletsMixedReferences | digitalocean/Tag.py:113-119 | `add_droplets([111, "222", droplet])` sends one POST with ids "111", "222" and the droplet's `str()`, not "333" |
| Scenarios.EmptyAndNoneShortCircuit | digitalocean/Tag.py:160-163 | `add_resources([], "volume")` and `add_resources([None], "volume")` send nothing and return `False` |
| Scenarios.FalsyValuesShortCircuit | digitalocean/Tag.py:174-182 | a lone `""` is wrapped and then filtered out, and `[0, False]` is filtered out, so nothing is sent and `False` comes back |
| Scenarios.CreateSendsOnlyName | digitalocean/Tag.py:35-40 | `create(name="t", resources={...})` posts `{"name": "t"}` only |
| Scenarios.LoadRefreshesNameAndResources | digitalocean/Tag.py:23-27 | a load response sets `name` and sets `resources` to the whole dict under `resources` |

## Left out

- `BaseAPI.get_data` (HTTP transport, authentication, JSON decoding, the exceptions it raises): it is I/O and not part of this model; it appears only as the `Api` function and the request log.
- `BaseAPI.__init__` is not part of this model; `New` assumes it assigns each keyword argument as an attribute, and leaves out the token and end-point defaults it reads from the environment.
- Python `str()` of arbitrary objects and full Python truthiness: an object reference is abstract (`truthy`, `repr`, optional `id`); floats are not modelled.
- Requests.PathText: does not render a name that is a list or dict, because Python's `str()` of containers (quoting, dict order) is outside the model; the request records the name value itself instead.
- A subclass of `list` that carries its own `id` attribute would make line 92 return that `id` for every element; the model treats every list argument as a plain list.
- Dict iteration order in `load` and `create`: keys are distinct, so the order of `setattr` calls does not change the result and the model merges maps.
- Remote-side semantics (idempotence of re-tagging, not-found handling) are outside the code.
- The cached `resources` attribute is not updated by `add_resources` / `remove_resources`, as in the code; the operations do not take or return the entity state.
