/**
 * The census pipeline of `src/gluon_census_exporter/__main__.py`: the path
 * accessor, `parse_generic` and the three parsers built on it, format
 * detection in `load`, the totals `update_gauges` accumulates and the
 * consistency check `check_node_counts` makes at the end of a run.
 *
 * Each parser is a method on the run's state, proved against a function
 * that describes the same walk over the document (`ParseSpec`); the
 * properties the program relies on are lemmas about those functions.
 */
module Census {
  import opened Wrappers
  import opened Json
  import opened Text
  import opened Version
  import opened Formats
  import opened Dedup
  import opened Counters

  /** The key path of each record field in a node, None where the format has no such field. */
  datatype Keys = Keys(base: Option<seq<string>>, model: Option<seq<string>>,
                       domain: Option<seq<string>>, site: Option<seq<string>>)

  const MeshviewerKeys := Keys(Some(["firmware", "base"]), Some(["model"]), Some(["domain"]), None)

  const NodesJsonV1Keys := Keys(Some(["nodeinfo", "software", "firmware", "base"]), None, None, None)

  const NodesJsonV2Keys := Keys(Some(["nodeinfo", "software", "firmware", "base"]),
                                Some(["nodeinfo", "hardware", "model"]),
                                Some(["nodeinfo", "system", "domain_code"]),
                                Some(["nodeinfo", "system", "site_code"]))

  /**
   * `get_node_item`: None when there is no key path, when a key on the
   * path is missing or when the value found is not a string; the string
   * otherwise. Only KeyError is caught: a lookup in something that is not a
   * dict raises TypeError, which `get_node_item` lets through.
   */
  function GetNodeItem(node: Json, keys: Option<seq<string>>): (r: Result<Option<string>, Exception>)
    ensures keys.None? ==> r == Success(None)
    ensures r.Failure? <==> keys.Some? && Walk(node, keys.value) == Failure(TypeError)
    ensures r.Failure? ==> r.error == TypeError
    ensures r.Success? && r.value.Some? <==>
              keys.Some? && Walk(node, keys.value).Success? && Walk(node, keys.value).value.Str?
    ensures r.Success? && r.value.Some? ==> Walk(node, keys.value).value == Str(r.value.value)
  {
    if keys.None? then Success(None)
    else
      match Walk(node, keys.value)
      case Success(Str(s)) => Success(Some(s))
      case Success(_) => Success(None)
      case Failure(KeyError) => Success(None)
      case Failure(e) => Failure(e)
  }

  /** One half of a `ParseResult`: four `defaultdict(int)` counters. */
  datatype ParsePart = ParsePart(bases: multiset<VersionClass>, models: multiset<string>,
                                 domains: multiset<(string, string)>, sourceType: multiset<string>)

  const EmptyPart := ParsePart(multiset{}, multiset{}, multiset{}, multiset{})

  /** `ParseResult`: the counts of recognised ("gluon") and other ("alien") nodes. */
  datatype ParseResult = ParseResult(gluon: ParsePart, alien: ParsePart)

  const EmptyResult := ParseResult(EmptyPart, EmptyPart)

  /** The four dimensions every node is counted in. */
  datatype Dimension = Bases | Models | Domains | SourceTypes

  function PartTotal(p: ParsePart, d: Dimension): nat {
    match d
    case Bases => |p.bases|
    case Models => |p.models|
    case Domains => |p.domains|
    case SourceTypes => |p.sourceType|
  }

  /** The gluon plus alien total of one dimension. */
  function Total(r: ParseResult, d: Dimension): nat {
    PartTotal(r.gluon, d) + PartTotal(r.alien, d)
  }

  /** What `parse_generic` extracts from a node. */
  datatype NodeRecord = NodeRecord(vc: VersionClass, model: string, site: string, domain: string)

  function OrEmpty(s: Option<string>): string {
    if s.None? then "" else s.value
  }

  /**
   * The field lookups of `parse_generic`, in its order: the base is
   * classified, a missing model, domain or site becomes "", a model has its
   * whitespace collapsed. A TypeError from any lookup is raised.
   */
  function Record(node: Json, keys: Keys): (r: Result<NodeRecord, Exception>)
    ensures r.Success? <==>
              && GetNodeItem(node, keys.base).Success? && GetNodeItem(node, keys.model).Success?
              && GetNodeItem(node, keys.domain).Success? && GetNodeItem(node, keys.site).Success?
    ensures r.Failure? ==> r.error == TypeError
    ensures r.Success? ==>
              && r.value.vc == Classify(GetNodeItem(node, keys.base).value)
              && r.value.model == (match GetNodeItem(node, keys.model).value
                                   case None => ""
                                   case Some(m) => NormalizeModelName(m))
              && r.value.site == OrEmpty(GetNodeItem(node, keys.site).value)
              && r.value.domain == OrEmpty(GetNodeItem(node, keys.domain).value)
  {
    var base :- GetNodeItem(node, keys.base);
    var model :- GetNodeItem(node, keys.model);
    var domain :- GetNodeItem(node, keys.domain);
    var site :- GetNodeItem(node, keys.site);
    Success(NodeRecord(Classify(base), if model.None? then "" else NormalizeModelName(model.value),
                       OrEmpty(site), OrEmpty(domain)))
  }

  /** One more node in each of the four counters of a part. */
  function AddNode(p: ParsePart, rec: NodeRecord, source: string): ParsePart {
    ParsePart(p.bases + multiset{rec.vc}, p.models + multiset{rec.model},
              p.domains + multiset{(rec.site, rec.domain)}, p.sourceType + multiset{source})
  }

  /**
   * The increments at the end of `parse_generic`: exactly one cell in each
   * dimension, all four in the alien part when the vtype is undefined or
   * foreign and all four in the gluon part otherwise, never in both.
   */
  function Tally(r: ParseResult, rec: NodeRecord, source: string): (t: ParseResult)
    ensures rec.vc.vtype.IsAlien() ==> t.gluon == r.gluon && t.alien == AddNode(r.alien, rec, source)
    ensures !rec.vc.vtype.IsAlien() ==> t.alien == r.alien && t.gluon == AddNode(r.gluon, rec, source)
    ensures forall d :: Total(t, d) == Total(r, d) + 1
  {
    if rec.vc.vtype.IsAlien() then ParseResult(r.gluon, AddNode(r.alien, rec, source))
    else ParseResult(AddNode(r.gluon, rec, source), r.alien)
  }

  /** The deduplicator's state after a call, and what the call returned or raised. */
  datatype Parsed = Parsed(ctx: Ctx, result: Result<ParseResult, Exception>)

  /**
   * `parse_generic(node_id, node, keys, source_type, result)`. The id is
   * claimed before any field is looked up, so a TypeError from a lookup
   * leaves it in `seen`. A repeated id leaves the result as it was; a new
   * one adds one to every dimension's total.
   */
  function Generic(c: Ctx, nodeId: Json, node: Json, keys: Keys, source: string, r: ParseResult): (p: Parsed)
    ensures p.ctx == Claim(c, nodeId).ctx
    ensures Claim(c, nodeId).result == Success(true) ==> p.result == Success(r)
    ensures p.result.Success? ==> forall d :: Total(p.result.value, d) == Total(r, d) + |p.ctx.seen - c.seen|
    ensures p.result.Failure? ==> p.result.error == TypeError
  {
    var claimed := Claim(c, nodeId);
    match claimed.result
    case Failure(e) => Parsed(claimed.ctx, Failure(e))
    case Success(seenBefore) =>
      if seenBefore then
        assert claimed.ctx.seen - c.seen == {};
        Parsed(claimed.ctx, Success(r))
      else
        assert claimed.ctx.seen - c.seen == {HashKey(nodeId).value};
        match Record(node, keys)
        case Failure(e) => Parsed(claimed.ctx, Failure(e))
        case Success(rec) => Parsed(claimed.ctx, Success(Tally(r, rec, source)))
  }

  /** A node as a parser's loop hands it to `parse_generic`: the outcome of the id lookup, and the node. */
  datatype Entry = Entry(id: Result<Json, Exception>, node: Json)

  /** One iteration of a parser's loop: a missing id skips the node, any other exception is raised. */
  function Step(c: Ctx, e: Entry, keys: Keys, source: string, r: ParseResult): Parsed {
    match e.id
    case Failure(KeyError) => Parsed(c, Success(r))
    case Failure(err) => Parsed(c, Failure(err))
    case Success(nodeId) => Generic(c, nodeId, e.node, keys, source, r)
  }

  /** A parser's loop over its entries, from an empty result; the first exception ends it. */
  function Fold(c: Ctx, es: seq<Entry>, keys: Keys, source: string): Parsed
    decreases |es|
  {
    if es == [] then Parsed(c, Success(EmptyResult))
    else
      var prev := Fold(c, es[..|es| - 1], keys, source);
      if prev.result.Failure? then prev
      else Step(prev.ctx, es[|es| - 1], keys, source, prev.result.value)
  }

  /** The nodes of `parse_meshviewer`, with their id at `node_id`. */
  function MeshviewerEntries(nodes: seq<Json>): (es: seq<Entry>)
    ensures |es| == |nodes|
    ensures forall i :: 0 <= i < |nodes| ==> es[i] == Entry(Walk(nodes[i], ["node_id"]), nodes[i])
  {
    seq(|nodes|, i requires 0 <= i < |nodes| => Entry(Walk(nodes[i], ["node_id"]), nodes[i]))
  }

  /** The nodes of `parse_nodes_json_v1`: the id is the mapping's key. */
  function NodesJsonV1Entries(members: seq<(string, Json)>): (es: seq<Entry>)
    ensures |es| == |members|
    ensures forall i :: 0 <= i < |members| ==> es[i] == Entry(Success(Str(members[i].0)), members[i].1)
  {
    seq(|members|, i requires 0 <= i < |members| => Entry(Success(Str(members[i].0)), members[i].1))
  }

  /** The nodes of `parse_nodes_json_v2`, with their id at `nodeinfo.node_id`. */
  function NodesJsonV2Entries(nodes: seq<Json>): (es: seq<Entry>)
    ensures |es| == |nodes|
    ensures forall i :: 0 <= i < |nodes| ==> es[i] == Entry(Walk(nodes[i], ["nodeinfo", "node_id"]), nodes[i])
  {
    seq(|nodes|, i requires 0 <= i < |nodes| => Entry(Walk(nodes[i], ["nodeinfo", "node_id"]), nodes[i]))
  }

  /** What running a parser on a document does to the deduplicator and what it returns. */
  function ParseSpec(c: Ctx, parser: Parser, data: Json, name: string): Parsed {
    match parser
    case MeshviewerParser =>
      (match NodeList(data)
       case Failure(e) => Parsed(c, Failure(e))
       case Success(nodes) => Fold(c, MeshviewerEntries(nodes), MeshviewerKeys, name))
    case NodesJsonV1Parser =>
      (match NodeMembers(data)
       case Failure(e) => Parsed(c, Failure(e))
       case Success(members) => Fold(c, NodesJsonV1Entries(members), NodesJsonV1Keys, name))
    case NodesJsonV2Parser =>
      (match NodeList(data)
       case Failure(e) => Parsed(c, Failure(e))
       case Success(nodes) => Fold(c, NodesJsonV2Entries(nodes), NodesJsonV2Keys, name))
  }

  /** `load` after the download: the first accepting format parses, or "No parser found" is raised. */
  function LoadSpec(accepts: Schemas, c: Ctx, data: Json): Parsed {
    match Detect(accepts, data)
    case None => Parsed(c, Failure(ValueError("No parser found")))
    case Some(f) => ParseSpec(c, f.parser, data, f.name)
  }

  /** Once a prefix of the entries has raised, the rest are never looked at. */
  lemma {:induction false} FoldFailurePersists(c: Ctx, es: seq<Entry>, keys: Keys, source: string, i: nat)
    requires i <= |es|
    requires Fold(c, es[..i], keys, source).result.Failure?
    ensures Fold(c, es, keys, source) == Fold(c, es[..i], keys, source)
    decreases |es| - i
  {
    if i < |es| {
      assert es[..i + 1][..i] == es[..i];
      FoldFailurePersists(c, es, keys, source, i + 1);
    } else {
      assert es[..i] == es;
    }
  }

  /**
   * One more iteration of a parser's loop: from a prefix that has not
   * raised, the next entry's step extends it, and if that step raises it is
   * the outcome of the whole loop.
   */
  lemma FoldNext(c: Ctx, es: seq<Entry>, keys: Keys, source: string, i: nat)
    requires i < |es|
    requires Fold(c, es[..i], keys, source).result.Success?
    ensures var prev := Fold(c, es[..i], keys, source);
            var next := Step(prev.ctx, es[i], keys, source, prev.result.value);
            && Fold(c, es[..i + 1], keys, source) == next
            && (next.result.Failure? ==> Fold(c, es, keys, source) == next)
  {
    assert es[..i + 1][..i] == es[..i];
    if Fold(c, es[..i + 1], keys, source).result.Failure? {
      FoldFailurePersists(c, es, keys, source, i + 1);
    }
  }

  /** Every count names the format the document was detected as, and sits on the side its vtype selects. */
  ghost predicate WellFormed(r: ParseResult, source: string) {
    && (forall vc :: vc in r.gluon.bases ==> !vc.vtype.IsAlien())
    && (forall vc :: vc in r.alien.bases ==> vc.vtype.IsAlien() && vc.version == vc.base)
    && (forall s :: s in r.gluon.sourceType ==> s == source)
    && (forall s :: s in r.alien.sourceType ==> s == source)
  }

  /** The number of entries that have no id: their nodes are skipped. */
  function MissingIds(es: seq<Entry>): nat {
    if es == [] then 0
    else MissingIds(es[..|es| - 1]) + (if es[|es| - 1].id == Failure(KeyError) then 1 else 0)
  }

  /** Tallying a classified node keeps the counts well formed. */
  lemma TallyWellFormed(r: ParseResult, rec: NodeRecord, source: string)
    requires WellFormed(r, source)
    requires rec.vc.vtype.IsAlien() ==> rec.vc.version == rec.vc.base
    ensures WellFormed(Tally(r, rec, source), source)
  {
  }

  /** `parse_generic`, as far as the counts are concerned. */
  lemma GenericCounts(c: Ctx, nodeId: Json, node: Json, keys: Keys, source: string, r: ParseResult)
    requires WellFormed(r, source)
    ensures var p := Generic(c, nodeId, node, keys, source, r);
            p.result.Success? ==>
              && |p.ctx.seen - c.seen| + (p.ctx.duplicates - c.duplicates) == 1
              && WellFormed(p.result.value, source)
  {
    var claimed := Claim(c, nodeId);
    if claimed.result == Success(false) {
      assert claimed.ctx.seen - c.seen == {HashKey(nodeId).value};
      if Record(node, keys).Success? {
        var rec := Record(node, keys).value;
        TallyWellFormed(r, rec, source);
      }
    } else if claimed.result == Success(true) {
      assert claimed.ctx.seen - c.seen == {};
    }
  }

  /** One iteration of a parser's loop, as far as the counts are concerned. */
  lemma StepCounts(c: Ctx, e: Entry, keys: Keys, source: string, r: ParseResult)
    requires WellFormed(r, source)
    ensures var p := Step(c, e, keys, source, r);
            c.seen <= p.ctx.seen && c.duplicates <= p.ctx.duplicates
    ensures var p := Step(c, e, keys, source, r);
            p.result.Success? ==>
              && (forall d :: Total(p.result.value, d) == Total(r, d) + |p.ctx.seen - c.seen|)
              && |p.ctx.seen - c.seen| + (p.ctx.duplicates - c.duplicates) ==
                 (if e.id == Failure(KeyError) then 0 else 1)
              && WellFormed(p.result.value, source)
    ensures e.id == Failure(KeyError) ==> Step(c, e, keys, source, r) == Parsed(c, Success(r))
    ensures e.id.Failure? && e.id.error != KeyError ==>
              Step(c, e, keys, source, r) == Parsed(c, Failure(e.id.error))
  {
    if e.id.Success? {
      GenericCounts(c, e.id.value, e.node, keys, source, r);
    } else {
      assert c.seen - c.seen == {};
    }
  }

  /**
   * The invariant `check_node_counts` tests, per document: when a parser
   * returns, every dimension's gluon plus alien total equals the number of
   * ids it newly inserted into `seen`; new ids plus repeats are the entries
   * that have an id; and the counts are well formed. Whether it returns or
   * raises, `seen` and `duplicates` only grow.
   */
  lemma {:induction false} FoldCounts(c: Ctx, es: seq<Entry>, keys: Keys, source: string)
    ensures var p := Fold(c, es, keys, source);
            c.seen <= p.ctx.seen && c.duplicates <= p.ctx.duplicates
    ensures var p := Fold(c, es, keys, source);
            p.result.Success? ==>
              && (forall d :: Total(p.result.value, d) == |p.ctx.seen - c.seen|)
              && |p.ctx.seen - c.seen| + (p.ctx.duplicates - c.duplicates) == |es| - MissingIds(es)
              && WellFormed(p.result.value, source)
    decreases |es|
  {
    if es != [] {
      var init := es[..|es| - 1];
      FoldCounts(c, init, keys, source);
      var prev := Fold(c, init, keys, source);
      if prev.result.Success? {
        StepCounts(prev.ctx, es[|es| - 1], keys, source, prev.result.value);
        var p := Step(prev.ctx, es[|es| - 1], keys, source, prev.result.value);
        DiffChain(c.seen, prev.ctx.seen, p.ctx.seen);
      }
    }
  }

  /** A document no schema accepts raises "No parser found" and leaves `seen` and `duplicates` alone. */
  lemma NoParserFound(accepts: Schemas, c: Ctx, data: Json)
    requires forall i :: 0 <= i < |Registered| ==> !accepts(Registered[i].name, data)
    ensures LoadSpec(accepts, c, data) == Parsed(c, Failure(ValueError("No parser found")))
  {
  }

  /**
   * The per-document invariant, for whatever `load` does: a document that
   * parses has, in every dimension, a gluon plus alien total equal to the
   * number of ids it newly inserted into `seen`, and its counts name the
   * format it was detected as; a document that raises has still only added
   * to `seen`.
   */
  lemma LoadCounts(accepts: Schemas, c: Ctx, data: Json)
    ensures var p := LoadSpec(accepts, c, data);
            c.seen <= p.ctx.seen && c.duplicates <= p.ctx.duplicates
    ensures var p := LoadSpec(accepts, c, data);
            p.result.Success? ==>
              && Detect(accepts, data).Some?
              && (forall d :: Total(p.result.value, d) == |p.ctx.seen - c.seen|)
              && WellFormed(p.result.value, Detect(accepts, data).value.name)
  {
    match Detect(accepts, data)
    case None =>
    case Some(f) =>
      match f.parser
      case MeshviewerParser =>
        if NodeList(data).Success? {
          FoldCounts(c, MeshviewerEntries(NodeList(data).value), MeshviewerKeys, f.name);
        }
      case NodesJsonV1Parser =>
        if NodeMembers(data).Success? {
          FoldCounts(c, NodesJsonV1Entries(NodeMembers(data).value), NodesJsonV1Keys, f.name);
        }
      case NodesJsonV2Parser =>
        if NodeList(data).Success? {
          FoldCounts(c, NodesJsonV2Entries(NodeList(data).value), NodesJsonV2Keys, f.name);
        }
  }

  /**
   * A meshviewer node whose `firmware` is a string rather than an object:
   * its id is claimed, then `node["firmware"]["base"]` raises TypeError
   * and the whole document is lost, so the id is in `seen` but counted in
   * no dimension.
   */
  lemma TypeErrorLosesDocument()
    ensures var node := Object([("node_id", Str("a")), ("firmware", Str("x"))]);
            Fold(Ctx({}, 0), MeshviewerEntries([node]), MeshviewerKeys, "meshviewer") ==
            Parsed(Ctx({Str("a")}, 0), Failure(TypeError))
  {
    var node := Object([("node_id", Str("a")), ("firmware", Str("x"))]);
    var es := MeshviewerEntries([node]);
    assert es[..0] == [];
    assert Walk(node, ["node_id"]) == Success(Str("a"));
    assert Walk(Str("x"), ["base"]) == Failure(TypeError);
    assert Walk(node, ["firmware", "base"]) == Failure(TypeError);
    assert Record(node, MeshviewerKeys) == Failure(TypeError);
  }

  /** The eight module-level running totals, one per gauge, for one side. */
  datatype Sums = Sums(version: nat, model: nat, domain: nat, source: nat)

  const ZeroSums := Sums(0, 0, 0, 0)

  function SumOf(s: Sums, d: Dimension): nat {
    match d
    case Bases => s.version
    case Models => s.model
    case Domains => s.domain
    case SourceTypes => s.source
  }

  /** The running totals after adding a part's counts. */
  function AddPart(s: Sums, p: ParsePart): Sums {
    Sums(s.version + |p.bases|, s.model + |p.models|, s.domain + |p.domains|, s.source + |p.sourceType|)
  }

  /**
   * The eight gauges. Each is labelled by the community and by the key of
   * the counter it is fed from: `gluon_base_total` by the base, version and
   * vtype of a class, `gluon_alien_total` by its version and vtype, the
   * others by a model, a (site, domain) pair or a source type. The version
   * gauges are keyed here by the class itself, which their labels determine
   * (`VersionLabelsDetermineClass`, `AlienLabelsDetermineClass`).
   */
  datatype Gauges = Gauges(
    version: Gauge<VersionClass>,
    model: Gauge<string>,
    domain: Gauge<(string, string)>,
    source: Gauge<string>,
    alien: Gauge<VersionClass>,
    alienModel: Gauge<string>,
    alienDomain: Gauge<(string, string)>,
    alienSource: Gauge<string>)

  const NoGauges := Gauges(map[], map[], map[], map[], map[], map[], map[], map[])

  /** Distinct vtypes carry distinct labels. */
  lemma VTypeNameInjective(a: VType, b: VType)
    requires a.Name() == b.Name()
    ensures a == b
  {
    assert a.Name()[|a.Name()| - 1] == b.Name()[|b.Name()| - 1];
    assert a.Name()[0] == b.Name()[0];
    assert |a.Name()| == |b.Name()|;
  }

  /** The labels `(base, version, vtype)` of `gluon_base_total` determine the class. */
  lemma VersionLabelsDetermineClass(a: VersionClass, b: VersionClass)
    requires a.base == b.base && a.version == b.version && a.vtype.Name() == b.vtype.Name()
    ensures a == b
  {
    VTypeNameInjective(a.vtype, b.vtype);
  }

  /** The labels `(version, vtype)` of `gluon_alien_total` determine an alien class, whose base is its version. */
  lemma AlienLabelsDetermineClass(a: VersionClass, b: VersionClass)
    requires a.vtype.IsAlien() && a.version == a.base
    requires b.vtype.IsAlien() && b.version == b.base
    requires a.version == b.version && a.vtype.Name() == b.vtype.Name()
    ensures a == b
  {
    VTypeNameInjective(a.vtype, b.vtype);
  }

  /** The state a run keeps across documents: the deduplicator, the running totals and the gauges. */
  datatype RunState = RunState(ctx: Ctx, gluon: Sums, alien: Sums, gauges: Gauges)

  const Initial := RunState(Ctx({}, 0), ZeroSums, ZeroSums, NoGauges)

  /** The gluon plus alien running total of one dimension. */
  function RunTotal(s: RunState, d: Dimension): nat {
    SumOf(s.gluon, d) + SumOf(s.alien, d)
  }

  /** The gauges after the four loops of `update_gauges` over a gluon part. */
  function AddGluonGauges(g: Gauges, community: string, p: ParsePart): Gauges {
    g.(version := AddCounts(g.version, community, p.bases),
       model := AddCounts(g.model, community, p.models),
       domain := AddCounts(g.domain, community, p.domains),
       source := AddCounts(g.source, community, p.sourceType))
  }

  /** The gauges after the four loops of `update_gauges` over an alien part. */
  function AddAlienGauges(g: Gauges, community: string, p: ParsePart): Gauges {
    g.(alien := AddCounts(g.alien, community, p.bases),
       alienModel := AddCounts(g.alienModel, community, p.models),
       alienDomain := AddCounts(g.alienDomain, community, p.domains),
       alienSource := AddCounts(g.alienSource, community, p.sourceType))
  }

  /** The gauges after `update_gauges(community, result, gauges)`. */
  function AddGauges(g: Gauges, community: string, r: ParseResult): Gauges {
    AddAlienGauges(AddGluonGauges(g, community, r.gluon), community, r.alien)
  }

  /** `update_gauges(community, result, gauges)`. */
  function UpdateGaugesSpec(s: RunState, community: string, r: ParseResult): RunState {
    RunState(s.ctx, AddPart(s.gluon, r.gluon), AddPart(s.alien, r.alien), AddGauges(s.gauges, community, r))
  }

  /** Adding a part adds its total in every dimension. */
  lemma AddPartTotals(s: Sums, p: ParsePart)
    ensures forall d :: SumOf(AddPart(s, p), d) == SumOf(s, d) + PartTotal(p, d)
  {
  }

  /** `update_gauges` adds a result's totals to the running totals and leaves the deduplicator alone. */
  lemma UpdateGaugesCounts(s: RunState, community: string, r: ParseResult)
    ensures var t := UpdateGaugesSpec(s, community, r);
            t.ctx == s.ctx && forall d :: RunTotal(t, d) == RunTotal(s, d) + Total(r, d)
  {
    AddPartTotals(s.gluon, r.gluon);
    AddPartTotals(s.alien, r.alien);
  }

  /**
   * `update_gauges` raises each gauge's value under the community by the
   * count the result has for the key, on its own side only, and changes no
   * value under any other community.
   */
  lemma UpdateGaugesValues(s: RunState, community: string, r: ParseResult, c: string,
                           vc: VersionClass, model: string, sd: (string, string), source: string)
    ensures var g := UpdateGaugesSpec(s, community, r).gauges;
            var n := if c == community then 1 else 0;
            && Value(g.version, c, vc) == Value(s.gauges.version, c, vc) + n * r.gluon.bases[vc]
            && Value(g.alien, c, vc) == Value(s.gauges.alien, c, vc) + n * r.alien.bases[vc]
            && Value(g.model, c, model) == Value(s.gauges.model, c, model) + n * r.gluon.models[model]
            && Value(g.alienModel, c, model) == Value(s.gauges.alienModel, c, model) + n * r.alien.models[model]
            && Value(g.domain, c, sd) == Value(s.gauges.domain, c, sd) + n * r.gluon.domains[sd]
            && Value(g.alienDomain, c, sd) == Value(s.gauges.alienDomain, c, sd) + n * r.alien.domains[sd]
            && Value(g.source, c, source) == Value(s.gauges.source, c, source) + n * r.gluon.sourceType[source]
            && Value(g.alienSource, c, source) ==
               Value(s.gauges.alienSource, c, source) + n * r.alien.sourceType[source]
  {
    var g := s.gauges;
    var h := AddGluonGauges(g, community, r.gluon);
    AddCountsValue(g.version, community, r.gluon.bases, c, vc);
    AddCountsValue(g.model, community, r.gluon.models, c, model);
    AddCountsValue(g.domain, community, r.gluon.domains, c, sd);
    AddCountsValue(g.source, community, r.gluon.sourceType, c, source);
    AddCountsValue(h.alien, community, r.alien.bases, c, vc);
    AddCountsValue(h.alienModel, community, r.alien.models, c, model);
    AddCountsValue(h.alienDomain, community, r.alien.domains, c, sd);
    AddCountsValue(h.alienSource, community, r.alien.sourceType, c, source);
  }

  /** What `named_load` did to the deduplicator, and the result it hands back (None when `load` raised). */
  datatype Loaded = Loaded(ctx: Ctx, result: Option<ParseResult>)

  /** `named_load`: every exception of `load` becomes None. */
  function NamedLoadSpec(accepts: Schemas, c: Ctx, fetched: Option<Json>): Loaded {
    match fetched
    case None => Loaded(c, None)
    case Some(data) =>
      var p := LoadSpec(accepts, c, data);
      Loaded(p.ctx, if p.result.Success? then Some(p.result.value) else None)
  }

  /** The result loop of `main`, over the documents in the order their loads complete. */
  function RunSpec(accepts: Schemas, s: RunState, worklist: seq<Source>): RunState
    decreases |worklist|
  {
    if worklist == [] then s
    else
      var before := RunSpec(accepts, s, worklist[..|worklist| - 1]);
      var item := worklist[|worklist| - 1];
      var l := NamedLoadSpec(accepts, before.ctx, item.fetched);
      var after := before.(ctx := l.ctx);
      if l.result.Some? then UpdateGaugesSpec(after, item.community, l.result.value) else after
  }

  /** The ids that documents which then raised left in `seen`: they are counted in no gauge. */
  function Orphans(accepts: Schemas, s: RunState, worklist: seq<Source>): nat
    decreases |worklist|
  {
    if worklist == [] then 0
    else
      var before := RunSpec(accepts, s, worklist[..|worklist| - 1]);
      var l := NamedLoadSpec(accepts, before.ctx, worklist[|worklist| - 1].fetched);
      Orphans(accepts, s, worklist[..|worklist| - 1]) +
      (if l.result.None? then |l.ctx.seen - before.ctx.seen| else 0)
  }

  /**
   * Over a run, every dimension's running total plus the orphaned ids is the
   * number of ids added to `seen`.
   */
  lemma {:induction false} RunBalance(accepts: Schemas, s: RunState, worklist: seq<Source>)
    ensures var t := RunSpec(accepts, s, worklist);
            && s.ctx.seen <= t.ctx.seen
            && forall d :: RunTotal(t, d) + Orphans(accepts, s, worklist) ==
                           RunTotal(s, d) + |t.ctx.seen - s.ctx.seen|
    decreases |worklist|
  {
    if worklist != [] {
      var init := worklist[..|worklist| - 1];
      var item := worklist[|worklist| - 1];
      RunBalance(accepts, s, init);
      var before := RunSpec(accepts, s, init);
      var l := NamedLoadSpec(accepts, before.ctx, item.fetched);
      if item.fetched.Some? {
        LoadCounts(accepts, before.ctx, item.fetched.value);
      }
      var after := before.(ctx := l.ctx);
      if l.result.Some? {
        UpdateGaugesCounts(after, item.community, l.result.value);
      }
      DiffChain(s.ctx.seen, before.ctx.seen, l.ctx.seen);
    }
  }

  /** The error one check of `check_node_counts` logs: none when the total matches the number of unique ids. */
  function Mismatch(total: nat, unique: nat, message: string): (errors: seq<string>)
    ensures errors == [] <==> total == unique
    ensures errors != [] ==> errors == [message]
  {
    if total != unique then [message] else []
  }

  /** `check_node_counts`: the errors it logs, one per dimension whose totals do not add up to `len(seen)`. */
  function CheckNodeCounts(s: RunState): (errors: seq<string>)
    ensures |errors| <= 4
    ensures errors == [] <==>
              && RunTotal(s, Bases) == |s.ctx.seen| && RunTotal(s, Models) == |s.ctx.seen|
              && RunTotal(s, Domains) == |s.ctx.seen| && RunTotal(s, SourceTypes) == |s.ctx.seen|
  {
    Mismatch(s.gluon.version + s.alien.version, |s.ctx.seen|, "Node count mismatch") +
    Mismatch(s.gluon.model + s.alien.model, |s.ctx.seen|, "Model count mismatch") +
    Mismatch(s.gluon.domain + s.alien.domain, |s.ctx.seen|, "Domain count mismatch") +
    Mismatch(s.gluon.source + s.alien.source, |s.ctx.seen|, "Source type count mismatch")
  }

  /** The errors `check_node_counts` logs when the same `n` ids are missing from every dimension's total. */
  lemma CheckShortfall(t: RunState, n: nat)
    requires forall d :: RunTotal(t, d) + n == |t.ctx.seen|
    ensures CheckNodeCounts(t) == [] <==> n == 0
    ensures n > 0 ==>
              CheckNodeCounts(t) ==
              ["Node count mismatch", "Model count mismatch", "Domain count mismatch", "Source type count mismatch"]
  {
    assert RunTotal(t, Bases) + n == |t.ctx.seen|;
    assert RunTotal(t, Models) + n == |t.ctx.seen|;
    assert RunTotal(t, Domains) + n == |t.ctx.seen|;
    assert RunTotal(t, SourceTypes) + n == |t.ctx.seen|;
  }

  /**
   * A run from the initial state reports no mismatch exactly when no
   * document raised after claiming an id; otherwise it reports all four.
   */
  lemma MismatchIffOrphans(accepts: Schemas, worklist: seq<Source>)
    ensures var t := RunSpec(accepts, Initial, worklist);
            CheckNodeCounts(t) == [] <==> Orphans(accepts, Initial, worklist) == 0
    ensures Orphans(accepts, Initial, worklist) > 0 ==>
              CheckNodeCounts(RunSpec(accepts, Initial, worklist)) ==
              ["Node count mismatch", "Model count mismatch", "Domain count mismatch", "Source type count mismatch"]
  {
    RunBalance(accepts, Initial, worklist);
    var t := RunSpec(accepts, Initial, worklist);
    assert t.ctx.seen - {} == t.ctx.seen;
    CheckShortfall(t, Orphans(accepts, Initial, worklist));
  }

  /**
   * The four loops of `update_gauges` over the gluon counters: each adds a
   * counter's entries to its gauge and their sum to its running total.
   */
  method IncrementGluonGauges(g: Gauges, totals: Sums, community: string, p: ParsePart)
    returns (t: Gauges, totals': Sums)
    ensures t == AddGluonGauges(g, community, p)
    ensures totals' == AddPart(totals, p)
  {
    var version, versionSum := IncrementGauge(g.version, community, p.bases);
    var model, modelSum := IncrementGauge(g.model, community, p.models);
    var domain, domainSum := IncrementGauge(g.domain, community, p.domains);
    var source, sourceSum := IncrementGauge(g.source, community, p.sourceType);
    t := g.(version := version, model := model, domain := domain, source := source);
    totals' := Sums(totals.version + versionSum, totals.model + modelSum,
                    totals.domain + domainSum, totals.source + sourceSum);
  }

  /** The four loops of `update_gauges` over the alien counters. */
  method IncrementAlienGauges(g: Gauges, totals: Sums, community: string, p: ParsePart)
    returns (t: Gauges, totals': Sums)
    ensures t == AddAlienGauges(g, community, p)
    ensures totals' == AddPart(totals, p)
  {
    var alien, alienSum := IncrementGauge(g.alien, community, p.bases);
    var model, modelSum := IncrementGauge(g.alienModel, community, p.models);
    var domain, domainSum := IncrementGauge(g.alienDomain, community, p.domains);
    var source, sourceSum := IncrementGauge(g.alienSource, community, p.sourceType);
    t := g.(alien := alien, alienModel := model, alienDomain := domain, alienSource := source);
    totals' := Sums(totals.version + alienSum, totals.model + modelSum,
                    totals.domain + domainSum, totals.source + sourceSum);
  }

  /** The module-level state of a run, and the functions of the program that update it. */
  class Census {
    const dedup: SeenSet
    var gluon: Sums
    var alien: Sums
    var gauges: Gauges

    function State(): RunState
      reads this, dedup
    {
      RunState(dedup.State(), gluon, alien, gauges)
    }

    /** Nothing seen, all totals zero, no gauge incremented. */
    constructor ()
      ensures State() == Initial
    {
      dedup := new SeenSet();
      gluon, alien, gauges := ZeroSums, ZeroSums, NoGauges;
    }

    /** `parse_generic`. */
    method ParseGeneric(nodeId: Json, node: Json, keys: Keys, source: string, result: ParseResult)
      returns (r: Result<ParseResult, Exception>)
      modifies dedup
      ensures Parsed(dedup.State(), r) == Generic(old(dedup.State()), nodeId, node, keys, source, result)
    {
      var seenBefore :- dedup.AlreadySeen(nodeId);
      if seenBefore {
        return Success(result);
      }
      var base :- GetNodeItem(node, keys.base);
      // The last pattern matches every string, so get_base_version never raises.
      var classified := GetBaseVersion(base);
      var vc := classified.value;
      var model :- GetNodeItem(node, keys.model);
      var modelName := if model.None? then "" else NormalizeModelName(model.value);
      var domain :- GetNodeItem(node, keys.domain);
      var site :- GetNodeItem(node, keys.site);
      var rec := NodeRecord(vc, modelName, OrEmpty(site), OrEmpty(domain));
      if vc.vtype.IsAlien() {
        r := Success(ParseResult(result.gluon, AddNode(result.alien, rec, source)));
      } else {
        r := Success(ParseResult(AddNode(result.gluon, rec, source), result.alien));
      }
    }

    /** `parse_meshviewer`. */
    method ParseMeshviewer(data: Json, name: string) returns (r: Result<ParseResult, Exception>)
      modifies dedup
      ensures Parsed(dedup.State(), r) == ParseSpec(old(dedup.State()), MeshviewerParser, data, name)
    {
      var nodes :- NodeList(data);
      ghost var es := MeshviewerEntries(nodes);
      ghost var c := dedup.State();
      assert ParseSpec(c, MeshviewerParser, data, name) == Fold(c, es, MeshviewerKeys, name);
      var result := EmptyResult;
      for i := 0 to |nodes|
        invariant Parsed(dedup.State(), Success(result)) == Fold(c, es[..i], MeshviewerKeys, name)
      {
        FoldNext(c, es, MeshviewerKeys, name, i);
        var node := nodes[i];
        var nodeId := Walk(node, ["node_id"]);
        if nodeId.Failure? {
          if nodeId.error == KeyError {
            continue;
          }
          return Failure(nodeId.error);
        }
        r := ParseGeneric(nodeId.value, node, MeshviewerKeys, name, result);
        if r.Failure? {
          return;
        }
        result := r.value;
      }
      assert es[..|nodes|] == es;
      return Success(result);
    }

    /** `parse_nodes_json_v1`. */
    method ParseNodesJsonV1(data: Json, name: string) returns (r: Result<ParseResult, Exception>)
      modifies dedup
      ensures Parsed(dedup.State(), r) == ParseSpec(old(dedup.State()), NodesJsonV1Parser, data, name)
    {
      var members :- NodeMembers(data);
      ghost var es := NodesJsonV1Entries(members);
      ghost var c := dedup.State();
      assert ParseSpec(c, NodesJsonV1Parser, data, name) == Fold(c, es, NodesJsonV1Keys, name);
      var result := EmptyResult;
      for i := 0 to |members|
        invariant Parsed(dedup.State(), Success(result)) == Fold(c, es[..i], NodesJsonV1Keys, name)
      {
        FoldNext(c, es, NodesJsonV1Keys, name, i);
        var (nodeId, node) := members[i];
        r := ParseGeneric(Str(nodeId), node, NodesJsonV1Keys, name, result);
        if r.Failure? {
          return;
        }
        result := r.value;
      }
      assert es[..|members|] == es;
      return Success(result);
    }

    /** `parse_nodes_json_v2`. */
    method ParseNodesJsonV2(data: Json, name: string) returns (r: Result<ParseResult, Exception>)
      modifies dedup
      ensures Parsed(dedup.State(), r) == ParseSpec(old(dedup.State()), NodesJsonV2Parser, data, name)
    {
      var nodes :- NodeList(data);
      ghost var es := NodesJsonV2Entries(nodes);
      ghost var c := dedup.State();
      assert ParseSpec(c, NodesJsonV2Parser, data, name) == Fold(c, es, NodesJsonV2Keys, name);
      var result := EmptyResult;
      for i := 0 to |nodes|
        invariant Parsed(dedup.State(), Success(result)) == Fold(c, es[..i], NodesJsonV2Keys, name)
      {
        FoldNext(c, es, NodesJsonV2Keys, name, i);
        var node := nodes[i];
        var nodeId := Walk(node, ["nodeinfo", "node_id"]);
        if nodeId.Failure? {
          if nodeId.error == KeyError {
            continue;
          }
          return Failure(nodeId.error);
        }
        r := ParseGeneric(nodeId.value, node, NodesJsonV2Keys, name, result);
        if r.Failure? {
          return;
        }
        result := r.value;
      }
      assert es[..|nodes|] == es;
      return Success(result);
    }

    /** The parser a format was registered with, applied to the document. */
    method Parse(parser: Parser, data: Json, name: string) returns (r: Result<ParseResult, Exception>)
      modifies dedup
      ensures Parsed(dedup.State(), r) == ParseSpec(old(dedup.State()), parser, data, name)
    {
      match parser {
        case MeshviewerParser => r := ParseMeshviewer(data, name);
        case NodesJsonV1Parser => r := ParseNodesJsonV1(data, name);
        case NodesJsonV2Parser => r := ParseNodesJsonV2(data, name);
      }
    }

    /**
     * `load` after the download: the formats are tried in registration order
     * and the first whose schema accepts the document parses it; an exception
     * the parser raises is not a schema error, so it propagates.
     */
    method Load(accepts: Schemas, data: Json) returns (r: Result<ParseResult, Exception>)
      modifies dedup
      ensures Parsed(dedup.State(), r) == LoadSpec(accepts, old(dedup.State()), data)
    {
      var format := DetectFormat(accepts, data);
      if format.None? {
        return Failure(ValueError("No parser found"));
      }
      r := Parse(format.value.parser, data, format.value.name);
    }

    /** `named_load`: None for a document that could not be fetched or whose load raised. */
    method NamedLoad(accepts: Schemas, fetched: Option<Json>) returns (r: Option<ParseResult>)
      modifies dedup
      ensures Loaded(dedup.State(), r) == NamedLoadSpec(accepts, old(dedup.State()), fetched)
    {
      if fetched.None? {
        return None;
      }
      var loaded := Load(accepts, fetched.value);
      if loaded.Failure? {
        return None;
      }
      return Some(loaded.value);
    }

    /** `update_gauges`: the gluon loops and then the alien loops (the program interleaves the two; they touch different gauges). */
    method UpdateGauges(community: string, result: ParseResult)
      modifies this
      ensures State() == UpdateGaugesSpec(old(State()), community, result)
    {
      var g, gluonTotals := IncrementGluonGauges(gauges, gluon, community, result.gluon);
      var g', alienTotals := IncrementAlienGauges(g, alien, community, result.alien);
      gauges, gluon, alien := g', gluonTotals, alienTotals;
    }

    /**
     * The result loop of `main`: each community's document is loaded and,
     * unless its load failed, its result is added to the gauges.
     */
    method Run(accepts: Schemas, worklist: seq<Source>)
      modifies this, dedup
      ensures State() == RunSpec(accepts, old(State()), worklist)
    {
      for i := 0 to |worklist|
        invariant State() == RunSpec(accepts, old(State()), worklist[..i])
      {
        assert worklist[..i + 1][..i] == worklist[..i];
        var item := worklist[i];
        var result := NamedLoad(accepts, item.fetched);
        if result.Some? {
          UpdateGauges(item.community, result.value);
        }
      }
      assert worklist[..|worklist|] == worklist;
    }

    /** `check_node_counts`, at the end of a run. */
    method CheckNodeCountsAtEnd() returns (errors: seq<string>)
      ensures errors == CheckNodeCounts(State())
    {
      var unique := |dedup.seen|;
      errors := Mismatch(gluon.version + alien.version, unique, "Node count mismatch");
      errors := errors + Mismatch(gluon.model + alien.model, unique, "Model count mismatch");
      errors := errors + Mismatch(gluon.domain + alien.domain, unique, "Domain count mismatch");
      errors := errors + Mismatch(gluon.source + alien.source, unique, "Source type count mismatch");
    }
  }
}
