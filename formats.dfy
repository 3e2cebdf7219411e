/**
 * The feed formats both programs register, in registration order, and the
 * detection rule of `load`: the first format whose schema accepts the
 * document is the one that parses it.
 *
 * The voluptuous schemas are not modelled: a schema is an opaque yes/no
 * answer per format name, passed in as `accepts`.
 */
module Formats {
  import opened Wrappers
  import opened Json

  /** The three parser functions; both meshviewer formats share one. */
  datatype Parser = MeshviewerParser | NodesJsonV1Parser | NodesJsonV2Parser

  /** A `Format` entry of `FORMATS`, without its schema. */
  datatype Format = Format(name: string, parser: Parser)

  /** The `register_hook` calls, in order (a dict keeps insertion order). */
  const Registered: seq<Format> := [
    Format("meshviewer", MeshviewerParser),
    Format("meshviewer (old)", MeshviewerParser),
    Format("nodes.json v1", NodesJsonV1Parser),
    Format("nodes.json v2", NodesJsonV2Parser)
  ]

  /** Whether the schema registered under a name accepts a document. */
  type Schemas = (string, Json) -> bool

  /** The first of `Registered[k..]` whose schema accepts `data`. */
  function DetectFrom(accepts: Schemas, data: Json, k: nat): (r: Option<Format>)
    requires k <= |Registered|
    ensures r.None? <==> forall i :: k <= i < |Registered| ==> !accepts(Registered[i].name, data)
    ensures r.Some? ==>
              exists i :: k <= i < |Registered| && Registered[i] == r.value && accepts(r.value.name, data) &&
                forall j :: k <= j < i ==> !accepts(Registered[j].name, data)
    decreases |Registered| - k
  {
    if k == |Registered| then None
    else if accepts(Registered[k].name, data) then Some(Registered[k])
    else DetectFrom(accepts, data, k + 1)
  }

  /**
   * The format `load` hands a document to: the first registered one whose
   * schema accepts it, or None ("No parser found") when none does.
   */
  function Detect(accepts: Schemas, data: Json): (r: Option<Format>)
    ensures r.None? <==> forall i :: 0 <= i < |Registered| ==> !accepts(Registered[i].name, data)
    ensures r.Some? ==>
              exists i :: 0 <= i < |Registered| && Registered[i] == r.value && accepts(r.value.name, data) &&
                forall j :: 0 <= j < i ==> !accepts(Registered[j].name, data)
  {
    DetectFrom(accepts, data, 0)
  }

  /** `for node in data["nodes"]`. */
  function NodeList(data: Json): Result<seq<Json>, Exception> {
    var nodes :- Walk(data, ["nodes"]);
    Iterate(nodes)
  }

  /** `data["nodes"].items()`. */
  function NodeMembers(data: Json): Result<seq<(string, Json)>, Exception> {
    var nodes :- Walk(data, ["nodes"]);
    Items(nodes)
  }

  /** A community's document: None when downloading or decoding it failed. */
  datatype Source = Source(community: string, fetched: Option<Json>)

  /** The loop of `load` over `FORMATS`, the same in both programs: the first format whose schema accepts the document. */
  method DetectFormat(accepts: Schemas, data: Json) returns (f: Option<Format>)
    ensures f == Detect(accepts, data)
  {
    for k := 0 to |Registered|
      invariant DetectFrom(accepts, data, k) == Detect(accepts, data)
    {
      var format := Registered[k];
      assert DetectFrom(accepts, data, k) ==
             if accepts(format.name, data) then Some(format) else DetectFrom(accepts, data, k + 1);
      if accepts(format.name, data) {
        return Some(format);
      }
    }
    return None;
  }

  /** A document both meshviewer schemas would accept is parsed as current meshviewer, never as the old one. */
  lemma MeshviewerFirst(accepts: Schemas, data: Json)
    requires accepts("meshviewer", data)
    ensures Detect(accepts, data) == Some(Format("meshviewer", MeshviewerParser))
  {
  }
}
