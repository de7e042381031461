/**
 The boundary to the data-access collaborator `BaseAPI.get_data(url, type,
 params)`. A call is recorded as a `Request`; the collaborator itself is a
 function from requests to parsed responses, passed in by the caller.
 */
module Requests {
  import opened Wrappers
  import opened Json
  import Decimal

  datatype Method = GET | POST | DELETE

  /**
   The three URLs the tag code formats: `"tags"`, `"tags/%s" % name` and
   `"tags/%s/resources" % name`. The name is kept as the attribute value that
   was formatted in.
   */
  datatype Path =
    | Tags
    | TagNamed(name: Value)
    | TagResources(name: Value)

  /** `"%s" % v` for a scalar value; lists and dicts are not rendered by this model. */
  function ScalarText(v: Value): Option<string> {
    match v
    case JNull => Some("None")
    case JBool(b) => Some(if b then "True" else "False")
    case JInt(i) => Some(Decimal.IntToDecimal(i))
    case JStr(s) => Some(s)
    case _ => None
  }

  /** The URL text of a path whose name renders. */
  function PathText(p: Path): (r: Option<string>)
    ensures r.Some? <==> p.Tags? || ScalarText(p.name).Some?
    ensures r.Some? ==> |r.value| >= 4 && r.value[..4] == "tags"
    ensures r.Some? && !p.Tags? ==> |r.value| >= 5 && r.value[..5] == "tags/"
  {
    match p
    case Tags => Some("tags")
    case TagNamed(name) =>
      (match ScalarText(name)
       case Some(s) => Some("tags/" + s)
       case None => None)
    case TagResources(name) =>
      (match ScalarText(name)
       case Some(s) => Some("tags/" + s + "/resources")
       case None => None)
  }

  /** The resources endpoint of a tag is its own URL followed by `/resources`. */
  lemma ResourcesPathExtendsTagPath(name: Value)
    requires ScalarText(name).Some?
    ensures PathText(TagResources(name)).Some? && PathText(TagNamed(name)).Some?
    ensures PathText(TagResources(name)).value == PathText(TagNamed(name)).value + "/resources"
  {
  }

  /**
   The name is formatted into the URL without escaping: the URL of a tag
   named `n + "/resources"` is the resources URL of the tag named `n`.
   */
  lemma NameNotEscaped(n: string)
    ensures PathText(TagNamed(JStr(n + "/resources"))) == PathText(TagResources(JStr(n)))
  {
    assert "tags/" + (n + "/resources") == "tags/" + n + "/resources";
  }

  /** One call of `get_data`; `params` is `None` when the caller passes none. */
  datatype Request = Request(path: Path, httpMethod: Method, params: Option<map<string, Value>>)

  /** The collaborator: the parsed response it returns for each request. */
  type Api = Request -> Value

  /** The reply of an operation that returns a value and never mutates the tag. */
  datatype Reply<+T> = Reply(value: T, log: seq<Request>)
}
